/**
 * The Kubernetes `CustomObjectsApi` as the clients see it: every call is a
 * value naming the verb and its arguments, and the cluster is an oracle
 * that answers a call with a document or an `ApiException`, or, for a
 * watch, with the finite stream of events it delivers, which may end in an
 * `ApiException`.
 */
module KubeApi {
  import opened Wrappers
  import opened Json
  import opened Errors
  import Constants

  /** A custom-resource collection: API group, version and plural name. */
  datatype Coordinate = Coordinate(group: string, version: string, plural: string)

  /** The fields of `V1DeleteOptions` a caller can set; all absent by default. */
  datatype DeleteOptions = DeleteOptions(
    gracePeriodSeconds: Option<int>,
    propagationPolicy: Option<string>,
    orphanDependents: Option<bool>,
    dryRun: Option<seq<string>>)

  /** `V1DeleteOptions()` with no argument. */
  const DefaultDeleteOptions: DeleteOptions := DeleteOptions(None, None, None, None)

  /** One call into `CustomObjectsApi`, with the keyword arguments it is given. */
  datatype Call =
    | CreateCall(coord: Coordinate, namespace: string, body: Value)
    | GetCall(coord: Coordinate, namespace: string, name: string)
      /** `patch_namespaced_custom_object`; `contentType` is `None` when the keyword is not passed. */
    | PatchCall(coord: Coordinate, namespace: string, name: string, body: Value, contentType: Option<string>)
    | PatchStatusCall(coord: Coordinate, namespace: string, name: string, body: Value)
    | DeleteCall(coord: Coordinate, namespace: string, name: string, options: DeleteOptions)
    | ListCall(coord: Coordinate, namespace: string, labelSelector: Option<string>, fieldSelector: Option<string>)
    | DeleteCollectionCall(coord: Coordinate, namespace: string, labelSelector: Option<string>, fieldSelector: Option<string>)
      /** `watch.Watch().stream(list_namespaced_custom_object, ...)`. */
    | WatchCall(coord: Coordinate, namespace: string, labelSelector: Option<string>, fieldSelector: Option<string>,
                timeoutSeconds: Option<int>)

  /** A watch event: its `type` (ADDED, MODIFIED, DELETED, ERROR, ...) and its `object` (`obj`). */
  datatype Event = Event(eventType: string, obj: Value) {
    predicate IsError() {
      eventType == Constants.ErrorEventType
    }
  }

  /** The cluster's answer to each request-response call. */
  type Api = Call -> Result<Value>

  /**
   * What a watch delivers: its events, in order, and the exception raised
   * when the next one is pulled after the last of them, if the stream
   * fails rather than ends.
   */
  datatype Stream = Stream(events: seq<Event>, raised: Option<ApiFailure>)

  /** The stream the cluster delivers in answer to each watch call. */
  type WatchApi = Call -> Stream

  /** `Clock(k)` is what the k-th call of `time.time()` returns. */
  type Clock = nat -> real
}
