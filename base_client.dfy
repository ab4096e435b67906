/**
 * `BaseCustomResourceClient`: request-response calls against one
 * custom-resource coordinate, a watch that stops after the first ERROR
 * event, and a wait that searches a watch for a resource condition.
 */
module BaseClient {
  import opened Wrappers
  import opened Json
  import opened Errors
  import opened KubeApi
  import Constants

  /** The client's fixed coordinate and default namespace. */
  datatype Client = Client(coord: Coordinate, namespace: string)

  /** The one API call an operation makes, and what the operation returns. */
  datatype Outcome<+T> = Outcome(call: Call, result: T)

  /** Python truthiness of an optional string: present and non-empty. */
  predicate Truthy(s: Option<string>) {
    s.Some? && s.value != ""
  }

  /**
   * `namespace or self.namespace`: the per-call namespace when it is
   * truthy, otherwise the client's own, so an empty override falls back too.
   */
  function EffectiveNamespace(default: string, namespace: Option<string>): (ns: string)
    ensures Truthy(namespace) ==> ns == namespace.value
    ensures !Truthy(namespace) ==> ns == default
  {
    match namespace
    case Some(s) => if s != "" then s else default
    case None => default
  }

  /** Resolving an already resolved namespace again changes nothing. */
  lemma EffectiveNamespaceIdempotent(default: string, namespace: Option<string>)
    ensures EffectiveNamespace(default, Some(EffectiveNamespace(default, namespace))) ==
            EffectiveNamespace(default, namespace)
  {
  }

  function CreateResource(c: Client, api: Api, body: Value, namespace: Option<string>): (o: Outcome<Result<Value>>)
    ensures o.call.CreateCall? && o.call.coord == c.coord
    ensures o.call.namespace == EffectiveNamespace(c.namespace, namespace)
    ensures o.call.body == body
    ensures o.result == api(o.call)
  {
    var call := CreateCall(c.coord, EffectiveNamespace(c.namespace, namespace), body);
    Outcome(call, api(call))
  }

  function GetResource(c: Client, api: Api, name: string, namespace: Option<string>): (o: Outcome<Result<Value>>)
    ensures o.call.GetCall? && o.call.coord == c.coord
    ensures o.call.namespace == EffectiveNamespace(c.namespace, namespace) && o.call.name == name
    ensures o.result == api(o.call)
  {
    var call := GetCall(c.coord, EffectiveNamespace(c.namespace, namespace), name);
    Outcome(call, api(call))
  }

  /** A merge patch of the whole object, sent without a content type. */
  function UpdateResource(c: Client, api: Api, name: string, body: Value, namespace: Option<string>): (o: Outcome<Result<Value>>)
    ensures o.call.PatchCall? && o.call.coord == c.coord
    ensures o.call.namespace == EffectiveNamespace(c.namespace, namespace) && o.call.name == name
    ensures o.call.body == body && o.call.contentType == None
    ensures o.result == api(o.call)
  {
    var call := PatchCall(c.coord, EffectiveNamespace(c.namespace, namespace), name, body, None);
    Outcome(call, api(call))
  }

  function UpdateResourceStatus(c: Client, api: Api, name: string, body: Value, namespace: Option<string>): (o: Outcome<Result<Value>>)
    ensures o.call.PatchStatusCall? && o.call.coord == c.coord
    ensures o.call.namespace == EffectiveNamespace(c.namespace, namespace) && o.call.name == name
    ensures o.call.body == body
    ensures o.result == api(o.call)
  {
    var call := PatchStatusCall(c.coord, EffectiveNamespace(c.namespace, namespace), name, body);
    Outcome(call, api(call))
  }

  /** A fresh `V1DeleteOptions`, with the grace period set only when one is given. */
  function DeleteOptionsFor(gracePeriodSeconds: Option<int>): (o: DeleteOptions)
    ensures o.gracePeriodSeconds == gracePeriodSeconds
    ensures o.(gracePeriodSeconds := None) == DefaultDeleteOptions
    ensures gracePeriodSeconds.None? ==> o == DefaultDeleteOptions
  {
    if gracePeriodSeconds.Some? then DefaultDeleteOptions.(gracePeriodSeconds := gracePeriodSeconds)
    else DefaultDeleteOptions
  }

  function DeleteResource(c: Client, api: Api, name: string, namespace: Option<string>,
                          gracePeriodSeconds: Option<int>): (o: Outcome<Result<Value>>)
    ensures o.call.DeleteCall? && o.call.coord == c.coord
    ensures o.call.namespace == EffectiveNamespace(c.namespace, namespace) && o.call.name == name
    ensures o.call.options.gracePeriodSeconds == gracePeriodSeconds
    ensures o.call.options.(gracePeriodSeconds := None) == DefaultDeleteOptions
    ensures o.result == api(o.call)
  {
    var call := DeleteCall(c.coord, EffectiveNamespace(c.namespace, namespace), name, DeleteOptionsFor(gracePeriodSeconds));
    Outcome(call, api(call))
  }

  function ListResources(c: Client, api: Api, namespace: Option<string>,
                         labelSelector: Option<string>, fieldSelector: Option<string>): (o: Outcome<Result<Value>>)
    ensures o.call.ListCall? && o.call.coord == c.coord
    ensures o.call.namespace == EffectiveNamespace(c.namespace, namespace)
    ensures o.call.labelSelector == labelSelector && o.call.fieldSelector == fieldSelector
    ensures o.result == api(o.call)
  {
    var call := ListCall(c.coord, EffectiveNamespace(c.namespace, namespace), labelSelector, fieldSelector);
    Outcome(call, api(call))
  }

  function PatchResource(c: Client, api: Api, name: string, body: Value, namespace: Option<string>,
                         contentType: string): (o: Outcome<Result<Value>>)
    ensures o.call.PatchCall? && o.call.coord == c.coord
    ensures o.call.namespace == EffectiveNamespace(c.namespace, namespace) && o.call.name == name
    ensures o.call.body == body && o.call.contentType == Some(contentType)
    ensures o.result == api(o.call)
  {
    var call := PatchCall(c.coord, EffectiveNamespace(c.namespace, namespace), name, body, Some(contentType));
    Outcome(call, api(call))
  }

  /** `update_resource` is the default-content-type `patch_resource` call without its content type. */
  lemma UpdateIsPatchWithoutContentType(c: Client, api: Api, name: string, body: Value, namespace: Option<string>)
    ensures var patch := PatchResource(c, api, name, body, namespace, Constants.MergePatchContentType).call;
      && patch.contentType == Some(Constants.MergePatchContentType)
      && UpdateResource(c, api, name, body, namespace).call ==
         PatchCall(patch.coord, patch.namespace, patch.name, patch.body, None)
  {
  }

  function DeleteCollectionResources(c: Client, api: Api, namespace: Option<string>,
                                     labelSelector: Option<string>, fieldSelector: Option<string>): (o: Outcome<Result<Value>>)
    ensures o.call.DeleteCollectionCall? && o.call.coord == c.coord
    ensures o.call.namespace == EffectiveNamespace(c.namespace, namespace)
    ensures o.call.labelSelector == labelSelector && o.call.fieldSelector == fieldSelector
    ensures o.result == api(o.call)
  {
    var call := DeleteCollectionCall(c.coord, EffectiveNamespace(c.namespace, namespace), labelSelector, fieldSelector);
    Outcome(call, api(call))
  }

  // ---------------------------------------------------------------------
  // Watching

  /** The events a watch yields from `events`: all of them, up to and including the first ERROR. */
  function UntilError(events: seq<Event>): (yielded: seq<Event>)
    ensures yielded <= events
    ensures forall j :: 0 <= j < |yielded| - 1 ==> !yielded[j].IsError()
    ensures |yielded| < |events| ==> |yielded| > 0 && yielded[|yielded| - 1].IsError()
  {
    if events == [] then []
    else if events[0].IsError() then [events[0]]
    else [events[0]] + UntilError(events[1..])
  }

  /** A sequence without an ERROR event is yielded whole. */
  lemma {:induction false} UntilErrorWithoutError(events: seq<Event>)
    requires forall j :: 0 <= j < |events| ==> !events[j].IsError()
    ensures UntilError(events) == events
  {
  }

  /** A sequence whose first ERROR is at `i` is yielded up to and including `i`, and no further. */
  lemma {:induction false} UntilErrorStopsAtFirstError(events: seq<Event>, i: nat)
    requires i < |events| && events[i].IsError()
    requires forall j :: 0 <= j < i ==> !events[j].IsError()
    ensures UntilError(events) == events[..i + 1]
  {
  }

  /** The loop of `watch_resources` stopped on an ERROR event rather than at the end of the stream. */
  predicate EndsWithError(yielded: seq<Event>) {
    yielded != [] && yielded[|yielded| - 1].IsError()
  }

  /**
   * What `watch_resources` makes of the server's stream: the events up to
   * the first ERROR, and the exception the stream raises after its last
   * event, which passes through only when no ERROR ended the loop first.
   */
  function Watched(stream: Stream): (w: Stream)
    ensures w.events == UntilError(stream.events)
    ensures (forall j :: 0 <= j < |stream.events| ==> !stream.events[j].IsError()) ==> w == stream
    ensures (exists j :: 0 <= j < |stream.events| && stream.events[j].IsError()) ==> w.raised == None
  {
    var yielded := UntilError(stream.events);
    if EndsWithError(yielded) then Stream(yielded, None) else Stream(yielded, stream.raised)
  }

  /**
   * `watch_resources`: opens one watch on the resolved namespace and
   * yields each event in order, stopping right after the first ERROR; an
   * exception the stream raises before that propagates to the caller.
   */
  method WatchResources(c: Client, watchApi: WatchApi, namespace: Option<string>, labelSelector: Option<string>,
                        fieldSelector: Option<string>, timeoutSeconds: Option<int>)
    returns (o: Outcome<Stream>)
    ensures o.call == WatchCall(c.coord, EffectiveNamespace(c.namespace, namespace), labelSelector, fieldSelector, timeoutSeconds)
    ensures o.result == Watched(watchApi(o.call))
  {
    var call := WatchCall(c.coord, EffectiveNamespace(c.namespace, namespace), labelSelector, fieldSelector, timeoutSeconds);
    var stream := watchApi(call);
    var events := stream.events;
    var yielded: seq<Event> := [];
    var i := 0;
    while i < |events|
      invariant 0 <= i <= |events|
      invariant yielded == events[..i]
      invariant forall j :: 0 <= j < i ==> !events[j].IsError()
    {
      yielded := yielded + [events[i]];
      if events[i].IsError() {
        break;
      }
      i := i + 1;
    }
    if i == |events| {
      assert events[..i] == events;
      UntilErrorWithoutError(events);
      o := Outcome(call, Stream(yielded, stream.raised));
    } else {
      UntilErrorStopsAtFirstError(events, i);
      o := Outcome(call, Stream(yielded, None));
    }
  }

  // ---------------------------------------------------------------------
  // Waiting for a condition

  /** The field selector that restricts a watch to the resource called `name`. */
  function NameSelector(name: string): string {
    "metadata.name=" + name
  }

  /** `resource['status']['conditions']` when both keys are present and it is a list, else no conditions. */
  function Conditions(resource: Value): seq<Value> {
    match Get(resource, "status")
    case Some(status) =>
      (match Get(status, "conditions")
       case Some(Arr(items)) => items
       case _ => [])
    case None => []
  }

  /** `condition.get('type') == condition_type and condition.get('status') == condition_status`. */
  predicate ConditionIs(condition: Value, conditionType: string, conditionStatus: string) {
    Get(condition, "type") == Some(Str(conditionType)) && Get(condition, "status") == Some(Str(conditionStatus))
  }

  /** Some entry of the resource's `status.conditions` has the wanted type and status. */
  predicate HasCondition(resource: Value, conditionType: string, conditionStatus: string) {
    exists i | 0 <= i < |Conditions(resource)| :: ConditionIs(Conditions(resource)[i], conditionType, conditionStatus)
  }

  /** A resource without `status`, or whose status has no `conditions`, never matches. */
  lemma NoConditionsNeverMatch(resource: Value, conditionType: string, conditionStatus: string)
    requires Get(resource, "status").None? || Get(Get(resource, "status").value, "conditions").None?
    ensures !HasCondition(resource, conditionType, conditionStatus)
  {
  }

  /**
   * What the wait returns from the watched `events`, followed by `raised`,
   * when `now(k)` is the clock reading taken after the first of them: the
   * first event whose object matches wins (checked before the clock);
   * otherwise a clock past `endTime` after a non-matching event ends the
   * wait; otherwise, once the events run out, the watch's own exception
   * propagates, or without one the resource was never seen in the wanted state.
   */
  function WaitSpec(events: seq<Event>, raised: Option<ApiFailure>, now: Clock, k: nat, endTime: real, name: string,
                    ns: string, conditionType: string, conditionStatus: string): Result<Value>
    decreases |events|
  {
    if events == [] then
      (match raised
       case Some(failure) => Err(failure)
       case None => Err(ResourceNeverSeen(name, ns)))
    else if HasCondition(events[0].obj, conditionType, conditionStatus) then Ok(events[0].obj)
    else if now(k) > endTime then Err(ConditionTimeout(conditionType, conditionStatus, name, ns))
    else WaitSpec(events[1..], raised, now, k + 1, endTime, name, ns, conditionType, conditionStatus)
  }

  /** None of the first `i` events matched, and no clock reading after them was past `endTime`. */
  ghost predicate QuietPrefix(events: seq<Event>, now: Clock, k: nat, endTime: real,
                              conditionType: string, conditionStatus: string, i: nat) {
    i <= |events| &&
    forall j :: 0 <= j < i ==>
      !HasCondition(events[j].obj, conditionType, conditionStatus) && now(k + j) <= endTime
  }

  lemma QuietPrefixShift(events: seq<Event>, now: Clock, k: nat, endTime: real,
                         conditionType: string, conditionStatus: string, i: nat)
    requires |events| > 0 && i + 1 <= |events|
    requires !HasCondition(events[0].obj, conditionType, conditionStatus) && now(k) <= endTime
    requires QuietPrefix(events[1..], now, k + 1, endTime, conditionType, conditionStatus, i)
    ensures QuietPrefix(events, now, k, endTime, conditionType, conditionStatus, i + 1)
  {
    forall j | 0 <= j < i + 1
      ensures !HasCondition(events[j].obj, conditionType, conditionStatus) && now(k + j) <= endTime
    {
      if j > 0 {
        assert events[j] == events[1..][j - 1];
        assert k + j == (k + 1) + (j - 1);
      }
    }
  }

  /** The first matching event is returned, even if the clock is already past `endTime` when it arrives. */
  lemma {:induction false} WaitReturnsFirstMatch(events: seq<Event>, raised: Option<ApiFailure>, now: Clock, k: nat,
                                                 endTime: real, name: string, ns: string, conditionType: string,
                                                 conditionStatus: string, i: nat)
    requires i < |events| && HasCondition(events[i].obj, conditionType, conditionStatus)
    requires QuietPrefix(events, now, k, endTime, conditionType, conditionStatus, i)
    ensures WaitSpec(events, raised, now, k, endTime, name, ns, conditionType, conditionStatus) == Ok(events[i].obj)
    decreases i
  {
    if i > 0 {
      assert !HasCondition(events[0].obj, conditionType, conditionStatus) && now(k) <= endTime;
      forall j | 0 <= j < i - 1
        ensures !HasCondition(events[1..][j].obj, conditionType, conditionStatus) && now(k + 1 + j) <= endTime
      {
        assert events[1..][j] == events[j + 1];
      }
      WaitReturnsFirstMatch(events[1..], raised, now, k + 1, endTime, name, ns, conditionType, conditionStatus, i - 1);
    }
  }

  /** The deadline fires at the first non-matching event after which the clock is past `endTime`. */
  lemma {:induction false} WaitTimesOutAtDeadline(events: seq<Event>, raised: Option<ApiFailure>, now: Clock, k: nat,
                                                  endTime: real, name: string, ns: string, conditionType: string,
                                                  conditionStatus: string, i: nat)
    requires i < |events| && !HasCondition(events[i].obj, conditionType, conditionStatus) && now(k + i) > endTime
    requires QuietPrefix(events, now, k, endTime, conditionType, conditionStatus, i)
    ensures WaitSpec(events, raised, now, k, endTime, name, ns, conditionType, conditionStatus) ==
            Err(ConditionTimeout(conditionType, conditionStatus, name, ns))
    decreases i
  {
    if i > 0 {
      assert !HasCondition(events[0].obj, conditionType, conditionStatus) && now(k) <= endTime;
      forall j | 0 <= j < i - 1
        ensures !HasCondition(events[1..][j].obj, conditionType, conditionStatus) && now(k + 1 + j) <= endTime
      {
        assert events[1..][j] == events[j + 1];
      }
      assert events[1..][i - 1] == events[i] && k + 1 + (i - 1) == k + i;
      WaitTimesOutAtDeadline(events[1..], raised, now, k + 1, endTime, name, ns, conditionType, conditionStatus, i - 1);
    }
  }

  /**
   * Events that run out with neither a match nor a late reading end the
   * wait with the watch's own exception when it raised one, and with
   * "Unable to find resource" otherwise.
   */
  lemma {:induction false} WaitExhaustsStream(events: seq<Event>, raised: Option<ApiFailure>, now: Clock, k: nat,
                                              endTime: real, name: string, ns: string, conditionType: string,
                                              conditionStatus: string)
    requires QuietPrefix(events, now, k, endTime, conditionType, conditionStatus, |events|)
    ensures raised.None? ==>
              WaitSpec(events, raised, now, k, endTime, name, ns, conditionType, conditionStatus) ==
              Err(ResourceNeverSeen(name, ns))
    ensures raised.Some? ==>
              WaitSpec(events, raised, now, k, endTime, name, ns, conditionType, conditionStatus) == Err(raised.value)
    decreases |events|
  {
    if events != [] {
      assert !HasCondition(events[0].obj, conditionType, conditionStatus) && now(k) <= endTime;
      forall j | 0 <= j < |events| - 1
        ensures !HasCondition(events[1..][j].obj, conditionType, conditionStatus) && now(k + 1 + j) <= endTime
      {
        assert events[1..][j] == events[j + 1];
      }
      WaitExhaustsStream(events[1..], raised, now, k + 1, endTime, name, ns, conditionType, conditionStatus);
    }
  }

  /**
   * Conversely, every outcome of the wait is one of the four above: a
   * returned resource is the first matching event's object; a deadline
   * timeout follows a non-matching event with a late reading; the
   * "Unable to find" timeout and an exception raised by the watch both
   * mean no event matched and no reading was late, and they come out
   * exactly when the watch did not raise, and did raise, respectively.
   */
  lemma {:induction false} WaitOutcomes(events: seq<Event>, raised: Option<ApiFailure>, now: Clock, k: nat,
                                        endTime: real, name: string, ns: string, conditionType: string,
                                        conditionStatus: string)
    ensures var r := WaitSpec(events, raised, now, k, endTime, name, ns, conditionType, conditionStatus);
      && (r.Ok? ==> exists i :: 0 <= i < |events| && r.value == events[i].obj &&
                                HasCondition(events[i].obj, conditionType, conditionStatus) &&
                                QuietPrefix(events, now, k, endTime, conditionType, conditionStatus, i))
      && (r.Err? && r.error.ConditionTimeout? ==>
            exists i :: 0 <= i < |events| && !HasCondition(events[i].obj, conditionType, conditionStatus) &&
                        now(k + i) > endTime && QuietPrefix(events, now, k, endTime, conditionType, conditionStatus, i))
      && (r.Err? && r.error.ResourceNeverSeen? ==>
            raised.None? && QuietPrefix(events, now, k, endTime, conditionType, conditionStatus, |events|))
      && (r.Err? && r.error.ApiException? ==>
            raised == Some(r.error) && QuietPrefix(events, now, k, endTime, conditionType, conditionStatus, |events|))
      && (r.Ok? || r == Err(ConditionTimeout(conditionType, conditionStatus, name, ns)) ||
          r == Err(ResourceNeverSeen(name, ns)) || (raised.Some? && r == Err(raised.value)))
    decreases |events|
  {
    if events == [] {
    } else if HasCondition(events[0].obj, conditionType, conditionStatus) {
      assert QuietPrefix(events, now, k, endTime, conditionType, conditionStatus, 0);
    } else if now(k) > endTime {
      assert k + 0 == k;
      assert QuietPrefix(events, now, k, endTime, conditionType, conditionStatus, 0);
    } else {
      var rest := events[1..];
      WaitOutcomes(rest, raised, now, k + 1, endTime, name, ns, conditionType, conditionStatus);
      var r := WaitSpec(rest, raised, now, k + 1, endTime, name, ns, conditionType, conditionStatus);
      if r.Ok? {
        var i :| 0 <= i < |rest| && r.value == rest[i].obj &&
                 HasCondition(rest[i].obj, conditionType, conditionStatus) &&
                 QuietPrefix(rest, now, k + 1, endTime, conditionType, conditionStatus, i);
        QuietPrefixShift(events, now, k, endTime, conditionType, conditionStatus, i);
        assert events[i + 1] == rest[i];
      } else if r.error.ConditionTimeout? {
        var i :| 0 <= i < |rest| && !HasCondition(rest[i].obj, conditionType, conditionStatus) &&
                 now(k + 1 + i) > endTime && QuietPrefix(rest, now, k + 1, endTime, conditionType, conditionStatus, i);
        QuietPrefixShift(events, now, k, endTime, conditionType, conditionStatus, i);
        assert events[i + 1] == rest[i] && k + (i + 1) == k + 1 + i;
      } else {
        QuietPrefixShift(events, now, k, endTime, conditionType, conditionStatus, |rest|);
      }
    }
  }

  /**
   * The per-event check of `wait_for_resource_condition`: when the object
   * has `status` and its status has `conditions`, scan those in order for
   * one with the wanted type and status.
   */
  method ScanConditions(resource: Value, conditionType: string, conditionStatus: string) returns (matched: bool)
    ensures matched == HasCondition(resource, conditionType, conditionStatus)
  {
    matched := false;
    var status := Get(resource, "status");
    if status.Some? {
      var conditions := Get(status.value, "conditions");
      if conditions.Some? && conditions.value.Arr? {
        var items := conditions.value.items;
        var j := 0;
        while j < |items|
          invariant 0 <= j <= |items|
          invariant forall m :: 0 <= m < j ==> !ConditionIs(items[m], conditionType, conditionStatus)
        {
          if Get(items[j], "type") == Some(Str(conditionType)) && Get(items[j], "status") == Some(Str(conditionStatus)) {
            assert ConditionIs(Conditions(resource)[j], conditionType, conditionStatus);
            return true;
          }
          j := j + 1;
        }
      }
    }
  }

  /**
   * `wait_for_resource_condition`: reads the clock once to fix the
   * deadline, watches the resolved namespace filtered to `name`, and for
   * each event first scans the object's conditions and then reads the
   * clock again. An exception of the watch propagates once its events are used up.
   */
  method WaitForResourceCondition(c: Client, watchApi: WatchApi, now: Clock, name: string, conditionType: string,
                                  conditionStatus: string, timeout: int, namespace: Option<string>)
    returns (o: Outcome<Result<Value>>)
    ensures o.call == WatchCall(c.coord, EffectiveNamespace(c.namespace, namespace), None, Some(NameSelector(name)), None)
    ensures var watched := Watched(watchApi(o.call));
      o.result == WaitSpec(watched.events, watched.raised, now, 1, now(0) + timeout as real, name,
                           EffectiveNamespace(c.namespace, namespace), conditionType, conditionStatus)
  {
    var ns := EffectiveNamespace(c.namespace, namespace);
    var endTime := now(0) + timeout as real;
    var watched := WatchResources(c, watchApi, Some(ns), None, Some(NameSelector(name)), None);
    var events := watched.result.events;
    var raised := watched.result.raised;
    ghost var spec := WaitSpec(events, raised, now, 1, endTime, name, ns, conditionType, conditionStatus);
    var i := 0;
    while i < |events|
      invariant 0 <= i <= |events|
      invariant spec == WaitSpec(events[i..], raised, now, 1 + i, endTime, name, ns, conditionType, conditionStatus)
    {
      var resource := events[i].obj;
      assert events[i..][0] == events[i] && events[i..][1..] == events[i + 1..];
      var matched := ScanConditions(resource, conditionType, conditionStatus);
      if matched {
        return Outcome(watched.call, Ok(resource));
      }
      if now(1 + i) > endTime {
        return Outcome(watched.call, Err(ConditionTimeout(conditionType, conditionStatus, name, ns)));
      }
      i := i + 1;
    }
    if raised.Some? {
      return Outcome(watched.call, Err(raised.value));
    }
    return Outcome(watched.call, Err(ResourceNeverSeen(name, ns)));
  }
}
