/** The event handling of the node agent's operating-system-config controller
    (pkg/nodeagent/controller/operatingsystemconfig/add.go): which Secret events are reconciled, and the
    jitter delay that spreads the reconciliations of all node agents over the sync jitter period.

    Each node agent sorts the cluster's nodes by name, finds its own node at index i of n, and delays its
    reconciliation by min + i*(max - min)/n seconds. Seconds are `real` here (float64 in the source). */
module OperatingSystemConfig {
  import opened Wrappers
  import opened NameOrder

  /** The data key of the Secret that holds the operating system config (`nodeagentv1alpha1.DataKeyOperatingSystemConfig`). */
  const OSCDataKey: string := "osc.yaml"

  /** An object an event can carry: a Secret with its data, or an object of another type. */
  datatype Object =
    | Secret(name: string, namespace: string, data: map<string, seq<bv8>>)
    | OtherObject(name: string, namespace: string)

  /** A controller event; an absent object is a nil `client.Object`. */
  datatype Event =
    | CreateEvent(obj: Option<Object>)
    | UpdateEvent(objectOld: Option<Object>, objectNew: Option<Object>)
    | DeleteEvent(obj: Option<Object>)
    | GenericEvent(obj: Option<Object>)

  datatype Request = Request(name: string, namespace: string)

  /** A work-queue entry: the request and the delay, in seconds, after which it is added. */
  datatype QueueItem = QueueItem(request: Request, delaySeconds: real)

  /** The operating system config bytes of a Secret. A missing key reads as nil, which `bytes.Equal`
      treats like an empty value. */
  function OSCData(secret: Object): seq<bv8>
    requires secret.Secret?
  {
    if OSCDataKey in secret.data then secret.data[OSCDataKey] else []
  }

  /** Both objects are Secrets and their operating system config bytes differ. */
  predicate OSCChanged(objectOld: Option<Object>, objectNew: Option<Object>)
  {
    objectOld.Some? && objectOld.value.Secret? && objectNew.Some? && objectNew.value.Secret?
    && OSCData(objectOld.value) != OSCData(objectNew.value)
  }

  /** `SecretPredicate`: creations pass, updates pass when the operating system config changed, deletions
      and generic events never pass. */
  function SecretPredicate(e: Event): (r: bool)
    ensures e.CreateEvent? ==> r
    ensures e.DeleteEvent? || e.GenericEvent? ==> !r
    ensures e.UpdateEvent? ==>
              (r <==> e.objectOld.Some? && e.objectOld.value.Secret? && e.objectNew.Some? && e.objectNew.value.Secret?
                      && OSCData(e.objectOld.value) != OSCData(e.objectNew.value))
  {
    match e
    case CreateEvent(_) => true
    case UpdateEvent(objectOld, objectNew) =>
      if objectOld.None? || !objectOld.value.Secret? then false
      else if objectNew.None? || !objectNew.value.Secret? then false
      else OSCData(objectOld.value) != OSCData(objectNew.value)
    case DeleteEvent(_) => false
    case GenericEvent(_) => false
  }

  /** An update that leaves the operating system config bytes alone is filtered out, whatever else in the
      Secret changed; an absent key and an empty value count as the same bytes. */
  lemma UnchangedOSCIsFiltered(objectOld: Object, objectNew: Object)
    requires objectOld.Secret? && objectNew.Secret?
    requires OSCDataKey !in objectOld.data || objectOld.data[OSCDataKey] == []
    requires OSCDataKey !in objectNew.data || objectNew.data[OSCDataKey] == []
    ensures !SecretPredicate(UpdateEvent(Some(objectOld), Some(objectNew)))
  {
  }

  /** `reconcileRequest`: the request that names the object. */
  function ReconcileRequest(obj: Object): (r: Request)
    ensures r.name == obj.name && r.namespace == obj.namespace
  {
    Request(obj.name, obj.namespace)
  }

  /** Go's `int(d.Seconds())` for a duration of `nanos` nanoseconds: whole seconds, truncated toward zero. */
  function TruncatedSeconds(nanos: int): (s: int)
    ensures nanos >= 0 ==> s >= 0 && s * 1_000_000_000 <= nanos < (s + 1) * 1_000_000_000
    ensures nanos < 0 ==> s <= 0 && (s - 1) * 1_000_000_000 < nanos <= s * 1_000_000_000
  {
    if nanos >= 0 then nanos / 1_000_000_000 else -((-nanos) / 1_000_000_000)
  }

  /** The first index of `name` in `names`, or -1 (`slices.IndexFunc`). */
  function IndexOf(names: seq<string>, name: string): (r: int)
    ensures -1 <= r < |names|
    ensures r >= 0 ==> names[r] == name && forall k :: 0 <= k < r ==> names[k] != name
    ensures r == -1 <==> name !in names
  {
    if names == [] then -1
    else if names[0] == name then 0
    else
      var i := IndexOf(names[1..], name);
      if i == -1 then -1 else i + 1
  }

  /** The linear mapping of position `index` among `count` nodes into the delay range. */
  function LinearDelay(minSeconds: int, maxSeconds: int, index: int, count: nat): real
    requires count > 0
  {
    minSeconds as real + (index as real) * ((maxSeconds - minSeconds) as real / count as real)
  }

  /** The last step of `compute`: the position of `nodeName` in `nodes` mapped linearly into the delay
      range, in the source's order of operations. */
  method MapToDelay(minSeconds: int, maxSeconds: int, nodes: seq<string>, nodeName: string) returns (delaySeconds: real)
    requires |nodes| > 0
    ensures delaySeconds == LinearDelay(minSeconds, maxSeconds, IndexOf(nodes, nodeName), |nodes|)
    ensures nodeName in nodes && minSeconds <= maxSeconds ==>
              minSeconds as real <= delaySeconds && (minSeconds < maxSeconds ==> delaySeconds < maxSeconds as real)
    ensures nodeName !in nodes && minSeconds < maxSeconds ==> delaySeconds < minSeconds as real
  {
    var index := IndexOf(nodes, nodeName);
    var rangeSize := (maxSeconds - minSeconds) as real / |nodes| as real;
    delaySeconds := minSeconds as real + index as real * rangeSize;
    assert delaySeconds == LinearDelay(minSeconds, maxSeconds, index, |nodes|);
    if nodeName in nodes && minSeconds <= maxSeconds {
      LinearDelayInRange(minSeconds, maxSeconds, index, |nodes|);
    } else if nodeName !in nodes && minSeconds < maxSeconds {
      MissingNodeDelayBelowMinimum(nodes, nodeName, minSeconds, maxSeconds);
    }
  }

  // ---------------------------------------------------------------------------------------------------
  // The work queue, the delayer and the event handler
  // ---------------------------------------------------------------------------------------------------

  /** The rate-limiting work queue, as the sequence of what has been added to it. */
  class WorkQueue {
    var items: seq<QueueItem>

    constructor ()
      ensures items == []
    {
      items := [];
    }

    method Add(request: Request)
      modifies this
      ensures items == old(items) + [QueueItem(request, 0.0)]
    {
      items := items + [QueueItem(request, 0.0)];
    }

    method AddAfter(request: Request, delaySeconds: real)
      modifies this
      ensures items == old(items) + [QueueItem(request, delaySeconds)]
    {
      items := items + [QueueItem(request, delaySeconds)];
    }
  }

  /** `delayer`. It keeps the last node list it listed successfully, sorted by name. */
  class Delayer {
    const minDelaySeconds: int
    const maxDelaySeconds: int
    var nodeList: Option<seq<string>>

    constructor (minDelaySeconds: int, maxDelaySeconds: int)
      ensures this.minDelaySeconds == minDelaySeconds && this.maxDelaySeconds == maxDelaySeconds
      ensures nodeList.None?
    {
      this.minDelaySeconds := minDelaySeconds;
      this.maxDelaySeconds := maxDelaySeconds;
      nodeList := None;
    }

    /** The delay of `nodeName` given the node list in effect. */
    function DelayIn(nodes: seq<string>, nodeName: string): real
      reads this
      requires |nodes| > 0
    {
      LinearDelay(minDelaySeconds, maxDelaySeconds, IndexOf(nodes, nodeName), |nodes|)
    }

    /** The node list a computation will use: the fresh list sorted by name if listing succeeded, the
        cached one otherwise. */
    function ListInEffect(listed: Result<seq<string>, string>): Option<seq<string>>
      reads this
    {
      if listed.Success? then Some(SortByName(listed.value)) else nodeList
    }

    /** `compute`. No node name means no delay and no listing. Otherwise a successful listing replaces the
        cached list and a failed one falls back to it. The list in effect must be non-empty: with an empty list
        the source's float division by zero yields an infinite or NaN delay, which reals cannot express, and
        a failed first listing dereferences a nil list. */
    method Compute(nodeName: string, listed: Result<seq<string>, string>) returns (delaySeconds: real)
      requires nodeName != "" ==> ListInEffect(listed).Some? && |ListInEffect(listed).value| > 0
      modifies this
      ensures nodeName == "" ==> delaySeconds == 0.0 && nodeList == old(nodeList)
      ensures nodeName != "" ==> nodeList == old(ListInEffect(listed))
      ensures nodeName != "" ==> nodeList.Some? && |nodeList.value| > 0
                                 && delaySeconds == DelayIn(nodeList.value, nodeName)
    {
      if nodeName == "" {
        return 0.0;
      }

      var nodes: seq<string>;
      if listed.Success? {
        nodes := SortByName(listed.value);
        nodeList := Some(nodes);
      } else {
        nodes := nodeList.value;
      }
      delaySeconds := MapToDelay(minDelaySeconds, maxDelaySeconds, nodes, nodeName);
    }
  }

  /** The handler `EnqueueWithJitterDelay` returns, with the delayer it closes over. */
  class JitterHandler {
    const delay: Delayer
    const nodeName: string

    /** The delayer spans from zero to the sync jitter period, in whole seconds. */
    constructor (syncJitterPeriodNanos: int, nodeName: string)
      ensures fresh(delay) && this.nodeName == nodeName
      ensures delay.minDelaySeconds == 0 && delay.maxDelaySeconds == TruncatedSeconds(syncJitterPeriodNanos)
      ensures delay.nodeList.None?
    {
      delay := new Delayer(0, TruncatedSeconds(syncJitterPeriodNanos));
      this.nodeName := nodeName;
    }

    /** A creation is enqueued at once, unless the event carries no object. */
    method OnCreate(obj: Option<Object>, q: WorkQueue)
      modifies q
      ensures q.items == old(q.items) + if obj.Some? then [QueueItem(ReconcileRequest(obj.value), 0.0)] else []
    {
      if obj.None? {
        return;
      }
      q.Add(ReconcileRequest(obj.value));
    }

    /** An update is enqueued after the jitter delay exactly when the operating system config changed;
        otherwise neither the queue nor the delayer's cached node list changes. */
    method OnUpdate(objectOld: Option<Object>, objectNew: Option<Object>, q: WorkQueue,
                    listed: Result<seq<string>, string>)
      requires OSCChanged(objectOld, objectNew) && nodeName != "" ==>
                 delay.ListInEffect(listed).Some? && |delay.ListInEffect(listed).value| > 0
      modifies q, delay
      ensures !OSCChanged(objectOld, objectNew) ==>
                q.items == old(q.items) && delay.nodeList == old(delay.nodeList)
      ensures OSCChanged(objectOld, objectNew) && nodeName == "" ==>
                q.items == old(q.items) + [QueueItem(ReconcileRequest(objectNew.value), 0.0)]
                && delay.nodeList == old(delay.nodeList)
      ensures OSCChanged(objectOld, objectNew) && nodeName != "" ==>
                delay.nodeList == old(delay.ListInEffect(listed))
                && delay.nodeList.Some? && |delay.nodeList.value| > 0
                && q.items == old(q.items)
                              + [QueueItem(ReconcileRequest(objectNew.value), delay.DelayIn(delay.nodeList.value, nodeName))]
    {
      if objectOld.None? || !objectOld.value.Secret? {
        return;
      }
      if objectNew.None? || !objectNew.value.Secret? {
        return;
      }
      if OSCData(objectOld.value) != OSCData(objectNew.value) {
        var duration := delay.Compute(nodeName, listed);
        q.AddAfter(ReconcileRequest(objectNew.value), duration);
      }
    }
  }

  // ---------------------------------------------------------------------------------------------------
  // Properties of the delay
  // ---------------------------------------------------------------------------------------------------

  /** The update handler and the event filter agree: an update is enqueued exactly when it passes. */
  lemma HandlerAgreesWithPredicate(objectOld: Option<Object>, objectNew: Option<Object>)
    ensures OSCChanged(objectOld, objectNew) == SecretPredicate(UpdateEvent(objectOld, objectNew))
  {
  }

  /** Every node of the list gets a delay in [min, max) when max > min, and exactly min when they meet. */
  lemma LinearDelayInRange(minSeconds: int, maxSeconds: int, index: int, count: nat)
    requires count > 0 && 0 <= index < count && minSeconds <= maxSeconds
    ensures minSeconds as real <= LinearDelay(minSeconds, maxSeconds, index, count)
    ensures minSeconds < maxSeconds ==> LinearDelay(minSeconds, maxSeconds, index, count) < maxSeconds as real
    ensures minSeconds == maxSeconds ==> LinearDelay(minSeconds, maxSeconds, index, count) == minSeconds as real
  {
    var width := (maxSeconds - minSeconds) as real;
    var step := width / count as real;
    assert step * count as real == width;
    assert 0.0 <= step;
    assert 0.0 <= index as real * step by {
      MulNonNegative(index as real, step);
    }
    if minSeconds < maxSeconds {
      assert 0.0 < step;
      assert index as real * step < count as real * step by {
        MulStrictlyMonotone(index as real, count as real, step);
      }
    }
  }

  /** Consecutive positions are one step of (max - min)/n apart, so the delays are spread evenly. */
  lemma LinearDelayEvenlySpaced(minSeconds: int, maxSeconds: int, index: int, count: nat)
    requires count > 0
    ensures LinearDelay(minSeconds, maxSeconds, index + 1, count) - LinearDelay(minSeconds, maxSeconds, index, count)
            == (maxSeconds - minSeconds) as real / count as real
  {
    var step := (maxSeconds - minSeconds) as real / count as real;
    assert (index + 1) as real * step == index as real * step + step;
  }

  /** A later position never waits less, and waits strictly longer when max > min. */
  lemma LinearDelayMonotone(minSeconds: int, maxSeconds: int, i: int, j: int, count: nat)
    requires count > 0 && i < j && minSeconds <= maxSeconds
    ensures LinearDelay(minSeconds, maxSeconds, i, count) <= LinearDelay(minSeconds, maxSeconds, j, count)
    ensures minSeconds < maxSeconds ==>
              LinearDelay(minSeconds, maxSeconds, i, count) < LinearDelay(minSeconds, maxSeconds, j, count)
  {
    var step := (maxSeconds - minSeconds) as real / count as real;
    assert 0.0 <= step;
    if minSeconds < maxSeconds {
      MulStrictlyMonotone(i as real, j as real, step);
    } else {
      assert step == 0.0;
    }
  }

  /** A node agent whose node is missing from the list gets index -1, hence a delay one step below the
      minimum (negative for the handler's minimum of zero). */
  lemma MissingNodeDelayBelowMinimum(nodes: seq<string>, nodeName: string, minSeconds: int, maxSeconds: int)
    requires |nodes| > 0 && nodeName !in nodes && minSeconds < maxSeconds
    ensures LinearDelay(minSeconds, maxSeconds, IndexOf(nodes, nodeName), |nodes|) < minSeconds as real
  {
    var step := (maxSeconds - minSeconds) as real / |nodes| as real;
    assert 0.0 < step;
  }

  /** Node agents that list the same nodes, in whatever order, compute from the same sorted list; so two
      agents on different nodes get different delays whenever max > min. */
  lemma DistinctNodesGetDistinctDelays(
    listedA: seq<string>, listedB: seq<string>, nodeA: string, nodeB: string, minSeconds: int, maxSeconds: int)
    requires multiset(listedA) == multiset(listedB)
    requires nodeA in listedA && nodeB in listedA && nodeA != nodeB && minSeconds < maxSeconds
    ensures LinearDelay(minSeconds, maxSeconds, IndexOf(SortByName(listedA), nodeA), |listedA|)
            != LinearDelay(minSeconds, maxSeconds, IndexOf(SortByName(listedB), nodeB), |listedB|)
  {
    SortByNameOrderIndependent(listedA, listedB);
    var sorted := SortByName(listedA);
    assert nodeA in multiset(sorted) && nodeB in multiset(sorted);
    assert nodeA in sorted && nodeB in sorted;
    var ia := IndexOf(sorted, nodeA);
    var ib := IndexOf(sorted, nodeB);
    assert ia != ib;
    if ia < ib {
      LinearDelayMonotone(minSeconds, maxSeconds, ia, ib, |sorted|);
    } else {
      LinearDelayMonotone(minSeconds, maxSeconds, ib, ia, |sorted|);
    }
  }

  lemma MulNonNegative(a: real, b: real)
    requires 0.0 <= a && 0.0 <= b
    ensures 0.0 <= a * b
  {
  }

  lemma MulStrictlyMonotone(a: real, b: real, c: real)
    requires a < b && 0.0 < c
    ensures a * c < b * c
  {
    assert b * c - a * c == (b - a) * c;
  }
}
