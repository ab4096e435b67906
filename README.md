# agents-api clients in Dafny

This project models the Python clients of the agents API: `SandboxClient` and
`SandboxSetClient`, and the `BaseCustomResourceClient` they share. The clients
are a facade over the Kubernetes `CustomObjectsApi` for the custom resources
`agents.kruise.io/v1alpha1` `sandboxes` and `sandboxsets`.

The Kubernetes API is an oracle. `KubeApi.Call` names each call the clients
make: its verb, coordinate, namespace and keyword arguments. `KubeApi.Api`
answers a call with a document or an `ApiException`. `KubeApi.WatchApi`
answers a watch call with a `Stream`: a finite sequence of events, and the
`ApiException` the stream raises after the last of them, if it fails rather
than ends. `KubeApi.Clock` gives
the k-th reading of `time.time()`. Each client operation returns an
`Outcome(call, result)`: the one call it makes and what it returns or raises.
A test that mocks the API and asserts `assert_called_once_with(...)` checks
exactly these two things.

Modules, following the source files:

- `Json`: JSON documents, `dict.get`, and the JSON merge patch of RFC 7386, section 2. The server applies `application/merge-patch+json` bodies this way.
- `Errors`: the exceptions as one tagged type `Failure`. These are `ApiException`, `SandboxNotFoundException`, `SandboxSetNotFoundException` and the two `TimeoutError`s of the wait. Also `Result` and the 404 translation.
- `Constants`: the coordinates and defaults of `constants.py` that the clients use.
- `KubeApi`: coordinates, calls, delete options, watch events, and the oracles.
- `BaseClient`: `base_client.py`. The request-response operations are functions. `watch_resources` and `wait_for_resource_condition` are methods with loops. Each method is proved equal to a recursive function (`UntilError`, `WaitSpec`), and lemmas characterise those functions.
- `SandboxClient`, `SandboxSetClient`: `sandbox_client.py` and `sandboxset_client.py`. Each client is a subset type of `BaseClient.Client` whose coordinate is fixed.

Points of the code's behaviour worth knowing:

- An empty-string per-call namespace also falls back to the client's default, because the code resolves it with Python `or` (`EffectiveNamespace`).
- `update_resource` and `scale_sandboxset` send no content type; only `patch_resource` passes `application/merge-patch+json` (`UpdateIsPatchWithoutContentType`).
- The wait raises Python's built-in `TimeoutError`, not the package's own `TimeoutException`.
- No operation catches an `ApiException` other than the 404 of the two `get` operations, so an exception raised by the watch stream passes through `watch_resources` and the wait.

## Model

| member | source | states |
|---|---|---|
| `BaseClient.EffectiveNamespace` | clients/python/agents_api/agents_api_client/base_client.py:61 | The per-call namespace is used when it is present and non-empty. Otherwise the client's default is used, including for an empty-string override. |
| `BaseClient.EffectiveNamespaceIdempotent` | clients/python/agents_api/agents_api_client/base_client.py:315-319 | Resolving the already resolved namespace again, as the wait does when it calls the watch, gives the same namespace. |
| `BaseClient.CreateResource` | clients/python/agents_api/agents_api_client/base_client.py:46-68 | One create call on the client's coordinate and resolved namespace. The body is unchanged, and the reply is returned unchanged. |
| `BaseClient.GetResource` | clients/python/agents_api/agents_api_client/base_client.py:70-92 | One get call for the name on the client's coordinate and resolved namespace. The reply is returned unchanged. |
| `BaseClient.UpdateResource` | clients/python/agents_api/agents_api_client/base_client.py:94-118 | One patch call carrying the body unchanged and no content type. The reply is returned unchanged. |
| `BaseClient.UpdateResourceStatus` | clients/python/agents_api/agents_api_client/base_client.py:120-144 | One status-subresource patch carrying the body unchanged. The reply is returned unchanged. |
| `BaseClient.DeleteOptionsFor` | clients/python/agents_api/agents_api_client/base_client.py:164-166 | The options hold exactly the given grace period (0 included). All other fields keep the `V1DeleteOptions()` defaults. With no grace period, the options are the defaults. |
| `BaseClient.DeleteResource` | clients/python/agents_api/agents_api_client/base_client.py:146-175 | One delete call for the name in the resolved namespace. Its options differ from the defaults only in the given grace period. The reply is returned unchanged. |
| `BaseClient.ListResources` | clients/python/agents_api/agents_api_client/base_client.py:177-200 | One list call in the resolved namespace. Both selectors are forwarded unchanged, and the reply is returned unchanged. |
| `BaseClient.PatchResource` | clients/python/agents_api/agents_api_client/base_client.py:237-266 | One patch call carrying the body and the given content type. The reply is returned unchanged. |
| `BaseClient.UpdateIsPatchWithoutContentType` | clients/python/agents_api/agents_api_client/base_client.py:111-118 | The call `update_resource` makes equals the default `patch_resource` call (content type `application/merge-patch+json`), except that update sends no content type. |
| `BaseClient.DeleteCollectionResources` | clients/python/agents_api/agents_api_client/base_client.py:268-291 | One delete-collection call in the resolved namespace. Both selectors are forwarded unchanged, and the reply is returned unchanged. |
| `BaseClient.UntilError` | clients/python/agents_api/agents_api_client/base_client.py:222-235 | The yielded events are a prefix of the stream, in order and unchanged. No yielded event except the last is an ERROR. When the stream is cut short, the last yielded event is an ERROR. |
| `BaseClient.UntilErrorWithoutError` | clients/python/agents_api/agents_api_client/base_client.py:222-232 | A stream with no ERROR event is yielded whole. |
| `BaseClient.UntilErrorStopsAtFirstError` | clients/python/agents_api/agents_api_client/base_client.py:232-235 | When the first ERROR is at position i, exactly the events up to and including position i are yielded. |
| `BaseClient.Watched` | clients/python/agents_api/agents_api_client/base_client.py:222-235 | What the watch makes of the server's stream: the events are `UntilError` of the stream's events. A stream without an ERROR event passes whole, its exception included. Once an ERROR event ends the loop, the stream's exception is never reached. |
| `BaseClient.WatchResources` | clients/python/agents_api/agents_api_client/base_client.py:202-235 | It opens one watch with the resolved namespace, the selectors and the timeout. Its loop yields exactly `Watched` of the server's stream: the events up to the first ERROR, then the stream's exception if no ERROR came first. |
| `BaseClient.NoConditionsNeverMatch` | clients/python/agents_api/agents_api_client/base_client.py:323 | A resource without `status`, or whose status has no `conditions`, never matches. |
| `BaseClient.ScanConditions` | clients/python/agents_api/agents_api_client/base_client.py:323-327 | The nested loop finds a match exactly when some entry of `status.conditions` has the wanted `type` and `status`. |
| `BaseClient.WaitReturnsFirstMatch` | clients/python/agents_api/agents_api_client/base_client.py:318-327 | Suppose no earlier event matched and no earlier reading was late. Then the first matching event's object is returned, even if the clock is already past the deadline when that event arrives. |
| `BaseClient.WaitTimesOutAtDeadline` | clients/python/agents_api/agents_api_client/base_client.py:329-331 | The deadline timeout is raised at the first non-matching event after which the clock reads later than `start + timeout`. |
| `BaseClient.WaitExhaustsStream` | clients/python/agents_api/agents_api_client/base_client.py:318-333 | If the events run out with no match and no late reading, the watch's own `ApiException` propagates when it raised one. Otherwise the result is the distinct "Unable to find resource" timeout. |
| `BaseClient.WaitOutcomes` | clients/python/agents_api/agents_api_client/base_client.py:315-333 | Conversely, a returned resource is the first match of the watched events, and each timeout has the witness described above. The "Unable to find" timeout comes out only when the watch raised nothing, and an `ApiException` only when it is the one the watch raised, both after no match and no late reading. No fifth outcome exists. |
| `BaseClient.WaitForResourceCondition` | clients/python/agents_api/agents_api_client/base_client.py:293-333 | It watches the resolved namespace with field selector `metadata.name=<name>`. The deadline is the first clock reading plus the timeout. Its loops give exactly `WaitSpec` of the events the watch yields and of the exception it raises. |
| `Errors.TranslateNotFound` | clients/python/agents_api/agents_api_client/sandboxset_client.py:79-82 | An `ApiException` with status 404 becomes the given not-found failure. Every other reply or failure passes unchanged. |
| `Errors.TimeoutMessagesDiffer` | clients/python/agents_api/agents_api_client/base_client.py:329-333 | Both wait failures are `TimeoutError` (`IsTimeoutError`), but their messages always differ, so the two outcomes can be told apart. |
| `SandboxClient.New` | clients/python/agents_api/agents_api_client/sandbox_client.py:32-40 | The coordinate is `agents.kruise.io`/`v1alpha1`/`sandboxes`. The namespace is the given one, or `"default"` when it is omitted. |
| `SandboxClient.CreateSandbox` | clients/python/agents_api/agents_api_client/sandbox_client.py:57 | Sends the body unchanged to `sandboxes` in the resolved namespace and returns the reply unchanged. |
| `SandboxClient.GetSandbox` | clients/python/agents_api/agents_api_client/sandbox_client.py:75-81 | On success the document is returned unchanged. A 404 becomes `SandboxNotFound(name, resolved namespace)`. Any other failure propagates unchanged. |
| `SandboxClient.UpdateSandbox` | clients/python/agents_api/agents_api_client/sandbox_client.py:99 | One patch of `sandboxes/<name>` with the body and no content type. The reply is returned unchanged. |
| `SandboxClient.UpdateSandboxStatus` | clients/python/agents_api/agents_api_client/sandbox_client.py:117 | One status patch of `sandboxes/<name>` with the body. The reply is returned unchanged. |
| `SandboxClient.DeleteSandbox` | clients/python/agents_api/agents_api_client/sandbox_client.py:136 | One delete of `sandboxes/<name>`, with default options plus the given grace period. The reply is returned unchanged. |
| `SandboxClient.ListSandboxes` | clients/python/agents_api/agents_api_client/sandbox_client.py:153 | One list of `sandboxes` with both selectors forwarded. The reply is returned unchanged. |
| `SandboxClient.WatchSandboxes` | clients/python/agents_api/agents_api_client/sandbox_client.py:172 | Yields exactly the base watch's events, and raises its exception, for a watch on `sandboxes`. |
| `SandboxClient.PatchSandbox` | clients/python/agents_api/agents_api_client/sandbox_client.py:194 | One patch of `sandboxes/<name>` with the body and the given content type. The reply is returned unchanged. |
| `SandboxClient.DeleteCollectionSandboxes` | clients/python/agents_api/agents_api_client/sandbox_client.py:211 | One delete-collection on `sandboxes` with both selectors forwarded. The reply is returned unchanged. |
| `SandboxClient.WaitForSandboxCondition` | clients/python/agents_api/agents_api_client/sandbox_client.py:235 | The base wait, on a watch of `sandboxes` filtered to the name, with arguments unchanged. |
| `SandboxSetClient.New` | clients/python/agents_api/agents_api_client/sandboxset_client.py:33-41 | The coordinate is `agents.kruise.io`/`v1alpha1`/`sandboxsets`. The namespace is the given one, or `"default"` when it is omitted. |
| `SandboxSetClient.CreateSandboxSet` | clients/python/agents_api/agents_api_client/sandboxset_client.py:58 | Sends the body unchanged to `sandboxsets` in the resolved namespace and returns the reply unchanged. |
| `SandboxSetClient.GetSandboxSet` | clients/python/agents_api/agents_api_client/sandboxset_client.py:76-82 | On success the document is returned unchanged. A 404 becomes `SandboxSetNotFound(name, resolved namespace)`. Any other failure propagates unchanged. |
| `SandboxSetClient.UpdateSandboxSet` | clients/python/agents_api/agents_api_client/sandboxset_client.py:100 | One patch of `sandboxsets/<name>` with the body and no content type. The reply is returned unchanged. |
| `SandboxSetClient.UpdateSandboxSetStatus` | clients/python/agents_api/agents_api_client/sandboxset_client.py:118 | One status patch of `sandboxsets/<name>` with the body. The reply is returned unchanged. |
| `SandboxSetClient.DeleteSandboxSet` | clients/python/agents_api/agents_api_client/sandboxset_client.py:137 | One delete of `sandboxsets/<name>`, with default options plus the given grace period. The reply is returned unchanged. |
| `SandboxSetClient.ListSandboxSets` | clients/python/agents_api/agents_api_client/sandboxset_client.py:154 | One list of `sandboxsets` with both selectors forwarded. The reply is returned unchanged. |
| `SandboxSetClient.WatchSandboxSets` | clients/python/agents_api/agents_api_client/sandboxset_client.py:173 | Yields exactly the base watch's events, and raises its exception, for a watch on `sandboxsets`. |
| `SandboxSetClient.PatchSandboxSet` | clients/python/agents_api/agents_api_client/sandboxset_client.py:195 | One patch of `sandboxsets/<name>` with the body and the given content type. The reply is returned unchanged. |
| `SandboxSetClient.DeleteCollectionSandboxSets` | clients/python/agents_api/agents_api_client/sandboxset_client.py:212 | One delete-collection on `sandboxsets` with both selectors forwarded. The reply is returned unchanged. |
| `SandboxSetClient.WaitForSandboxSetCondition` | clients/python/agents_api/agents_api_client/sandboxset_client.py:236 | The base wait, on a watch of `sandboxsets` filtered to the name, with arguments unchanged. |
| `SandboxSetClient.ScaleSandboxSet` | clients/python/agents_api/agents_api_client/sandboxset_client.py:251-266 | One patch of `sandboxsets/<name>` in the resolved namespace, with no content type. Its body is exactly `{"spec": {"replicas": N}}`, with no other key at either level. The reply is returned unchanged. |
| `SandboxSetClient.GetSandboxSetReplicas` | clients/python/agents_api/agents_api_client/sandboxset_client.py:280-282 | Returns `spec.replicas` when present, and 0 when `spec` or `replicas` is absent. A 404 becomes `SandboxSetNotFound` and is raised, never read as 0. Other failures propagate. |
| `SandboxSetClient.ScaleThenGetReplicas` | clients/python/agents_api/agents_api_client/sandboxset_client.py:238-282 | If the server merge-patches the scale body into any stored SandboxSet and serves the result, reading the replicas back gives exactly N. |
| `SandboxSetClient.ScaleTwoToFive` | clients/python/agents_api/test_sandboxset_client.py:271-295 | An instance of `ScaleThenGetReplicas` on the scale body that test checks: once the server merge-patches `{"spec": {"replicas": 5}}` into a SandboxSet `demo` stored with 2 replicas, reading the replicas back gives 5. |

## Left out

- Kubernetes configuration loading and the construction of `CustomObjectsApi` (`base_client.py` lines 36-44): environment and I/O. The API is the `Api`/`WatchApi` oracle instead.
- The HTTP watch connection and `time.time()`: the stream is a finite `Stream` given by `WatchApi`, and the clock is the `Clock` function. An exception is modelled only after the last delivered event, which is where pulling the next event raises it. Blocking, laziness, the connection's lifetime, cancellation and `timeout_seconds` expiry on the server side are not modelled. `timeout_seconds` is only forwarded.
- Logging.
- Python type errors on ill-shaped documents. In these cases the source would raise `TypeError` or `AttributeError`; the model treats the value as having no such keys or conditions. The cases are: `.get` or `in` applied to a document, status, condition or `spec` that is not a dict, and iteration over `conditions` when it is not a list. Watch events are taken to always carry `type` and `object`.
- JSON floating-point numbers: `Json.Value` has integers only.
- Clock readings are exact reals, so the floating-point rounding of `time.time() + timeout` and of the comparison with it (`base_client.py` lines 316 and 329) is not modelled.
- `GetSandboxSetReplicas`: returns whatever value `spec.replicas` holds. Like the source, it does not check that the value is an integer.
- The merge-patch semantics (`Json.MergePatch`) describe the server, not the client. `ScaleThenGetReplicas` assumes the server applies the scale body that way. That body is sent without a content type, and which content type the Kubernetes client library then chooses is not part of this model.
- The typed `openkruise/agents` clients (pydantic `model_dump` pass-throughs), `openkruise/configuration.py`, `basic_usage.py` and the `__init__` re-exports are not part of this model.
- `exceptions.py` classes the core never raises (`ValidationException`, `TimeoutException`, `PermissionDeniedException`, and the base `AgentsAPIException`) and constants it never reads (`SANDBOX_KIND`, `SANDBOXSET_KIND`, `DEFAULT_TIMEOUT`, `RETRY_COUNT`, `REQUEST_TIMEOUT`, `WATCH_TIMEOUT`, `MAX_CONNECTION_POOL_SIZE`, the condition-type names): they carry no behaviour here.
- Python default arguments (`condition_status="True"`, `timeout=300`, the merge-patch content type) are the constants `DefaultConditionStatus`, `DefaultWaitTimeout` and `MergePatchContentType`. The modelled operations take every argument explicitly.
