/**
 * The reconciler of the load-balance controller, `pkg/cloudprovider/controllers`: the informer
 * event handlers that feed the work queue, the per-key reconciliation `syncLoadBalance`, and
 * `processNextItem`, which takes one key off the queue.
 *
 * The Service lister, the allocation client and the status writer are not modelled: what they
 * return is an oracle value (`Lookup`, `Replies`), and every call the reconciler makes to the
 * allocation client or the status writer is appended to a call log.
 */
module Controllers {
  import opened Errors

  const ServiceTypeLoadBalancer := "LoadBalancer"

  /** One entry of `status.loadBalancer.ingress`; only its IP is read or written. */
  datatype Ingress = Ingress(ip: string)

  /** The fields of a `core/v1` Service that the controller reads or writes. */
  datatype Service = Service(
    namespace: string,
    name: string,
    serviceType: string,
    resourceVersion: string,
    loadBalancerIP: string,
    ingress: seq<Ingress>)

  /** What the informer passes to a handler: a Service, a deletion tombstone, or anything else. */
  datatype Object =
    | ServiceObject(service: Service)
    | Tombstone(key: string, obj: Object)
    | OtherObject

  /** What a handler did: nothing, `Add` of a key, or a panic on a failed type assertion. */
  datatype Handled = Ignored | Enqueued(key: string) | Panicked

  /** The lister's answer for a key. */
  datatype Lookup = Found(service: Service) | NotFound | LookupError(err: string)

  /** What the allocation client and the status writer return, should they be called. */
  datatype Replies = Replies(
    unbind: Outcome,
    available: Result<string>,
    bind: Outcome,
    updateStatus: Outcome)

  /** The calls `syncLoadBalance` makes on the allocation client and the cluster API. */
  datatype Call =
    | UnbindCall(name: string, namespace: string)
    | GetAvailableIpCall
    | BindCall(name: string, namespace: string, ip: string)
    | UpdateStatusCall(namespace: string, service: Service)

  /** The result of one reconciliation pass and the calls it made, in order. */
  datatype Pass = Pass(result: Outcome, calls: seq<Call>)

  /** The queue key of a Service: `namespace/name`, or just `name` without a namespace. */
  function ServiceKey(svc: Service): string {
    if svc.namespace == "" then svc.name else svc.namespace + "/" + svc.name
  }

  // ---------------------------------------------------------------------------
  // Event handlers

  /** `addService`: only LoadBalancer Services are queued; a non-Service panics. */
  function AddDecision(obj: Object): (h: Handled)
    ensures !obj.ServiceObject? ==> h == Panicked
    ensures obj.ServiceObject? ==> (h.Enqueued? <==> obj.service.serviceType == ServiceTypeLoadBalancer)
    ensures obj.ServiceObject? && !h.Enqueued? ==> h == Ignored
    ensures h.Enqueued? ==> h.key == ServiceKey(obj.service)
  {
    match obj
    case ServiceObject(service) =>
      if service.serviceType != ServiceTypeLoadBalancer then Ignored else Enqueued(ServiceKey(service))
    case _ => Panicked
  }

  /** `updateService`: an update that keeps the resource version is dropped. */
  function UpdateDecision(oldService: Service, newService: Service): (h: Handled)
    ensures oldService.resourceVersion == newService.resourceVersion ==> h == Ignored
    ensures oldService.resourceVersion != newService.resourceVersion ==> h == AddDecision(ServiceObject(newService))
    ensures h != Panicked
  {
    if oldService.resourceVersion == newService.resourceVersion then Ignored
    else AddDecision(ServiceObject(newService))
  }

  /** `deleteService` as written: a tombstone that wraps a Service is itself passed to `addService`. */
  function DeleteDecisionAsWritten(obj: Object): (h: Handled)
    ensures obj.ServiceObject? ==> h == AddDecision(obj)
    ensures obj.OtherObject? ==> h == Ignored
    ensures obj.Tombstone? && !obj.obj.ServiceObject? ==> h == Ignored
    ensures obj.Tombstone? && obj.obj.ServiceObject? ==> h == Panicked
  {
    match obj
    case ServiceObject(_) => AddDecision(obj)
    case Tombstone(_, inner) => if inner.ServiceObject? then AddDecision(obj) else Ignored
    case OtherObject => Ignored
  }

  /** `deleteService` as intended: the Service inside a tombstone is passed to `addService`. */
  function DeleteDecision(obj: Object): (h: Handled)
    ensures obj.ServiceObject? ==> h == AddDecision(obj)
    ensures obj.Tombstone? && obj.obj.ServiceObject? ==> h == AddDecision(obj.obj)
    ensures obj.Tombstone? && !obj.obj.ServiceObject? ==> h == Ignored
    ensures obj.OtherObject? ==> h == Ignored
    ensures h != Panicked
  {
    match obj
    case ServiceObject(_) => AddDecision(obj)
    case Tombstone(_, inner) => if inner.ServiceObject? then AddDecision(inner) else Ignored
    case OtherObject => Ignored
  }

  /** As written, deleting a LoadBalancer Service seen only through a tombstone panics. */
  lemma TombstoneDeletePanics(key: string, svc: Service)
    ensures DeleteDecisionAsWritten(Tombstone(key, ServiceObject(svc))) == Panicked
    ensures svc.serviceType == ServiceTypeLoadBalancer ==>
              DeleteDecision(Tombstone(key, ServiceObject(svc))) == Enqueued(ServiceKey(svc))
  {
  }

  // ---------------------------------------------------------------------------
  // Reconciliation

  /**
   * The IP the Service should hold before asking the pool: the operator's `loadBalancerIP`
   * wins over the first reported ingress IP; "" means a new IP must be allocated.
   */
  function DesiredIp(svc: Service): (ip: string)
    ensures svc.loadBalancerIP != "" ==> ip == svc.loadBalancerIP
    ensures svc.loadBalancerIP == "" && |svc.ingress| > 0 ==> ip == svc.ingress[0].ip
    ensures ip == "" <==> svc.loadBalancerIP == "" && (|svc.ingress| == 0 || svc.ingress[0].ip == "")
  {
    var reported := if |svc.ingress| > 0 then svc.ingress[0].ip else "";
    if svc.loadBalancerIP != "" then svc.loadBalancerIP else reported
  }

  /** The status differs from one carrying `ip` as its first ingress entry. */
  predicate NeedsStatusWrite(svc: Service, ip: string) {
    |svc.ingress| == 0 || svc.ingress[0].ip != ip
  }

  /** The Service whose status carries exactly one ingress entry, `ip`. */
  function WithIngress(svc: Service, ip: string): Service {
    svc.(ingress := [Ingress(ip)])
  }

  /**
   * `syncLoadBalance(namespace, name)` as a function of the oracle answers. A pass makes at
   * most three calls, releases the IP exactly when the Service is gone, and writes a status
   * only after a successful bind, returning that write's result.
   */
  function Reconcile(namespace: string, name: string, lookup: Lookup, replies: Replies): (p: Pass)
    ensures |p.calls| <= 3
    ensures (exists k :: 0 <= k < |p.calls| && p.calls[k].UnbindCall?) <==> lookup.NotFound?
    ensures Writes(p.calls) ==> lookup.Found? && replies.bind == Success && p.result == replies.updateStatus
  {
    match lookup
    case NotFound =>
      var released := Pass(replies.unbind, [UnbindCall(name, namespace)]);
      assert released.calls[0].UnbindCall?;
      released
    case LookupError(err) => Pass(Failure(err), [])
    case Found(svc) =>
      var wanted := DesiredIp(svc);
      var asked := if wanted == "" then [GetAvailableIpCall] else [];
      if wanted == "" && replies.available.Err? then Pass(Failure(replies.available.error), asked)
      else
        var lb := if wanted == "" then replies.available.value else wanted;
        var bound := asked + [BindCall(name, namespace, lb)];
        if replies.bind.Failure? then Pass(replies.bind, bound)
        else if NeedsStatusWrite(svc, lb) then
          Pass(replies.updateStatus, bound + [UpdateStatusCall(namespace, WithIngress(svc, lb))])
        else Pass(Success, bound)
  }

  /** The IP a found Service is bound to, when allocation does not fail. */
  function BoundIp(svc: Service, replies: Replies): string
    requires DesiredIp(svc) != "" || replies.available.Ok?
  {
    if DesiredIp(svc) == "" then replies.available.value else DesiredIp(svc)
  }

  predicate Writes(calls: seq<Call>) {
    exists k :: 0 <= k < |calls| && calls[k].UpdateStatusCall?
  }

  /** A deleted Service is released once, by its identity, and nothing else is called. */
  lemma NotFoundReleases(namespace: string, name: string, replies: Replies)
    ensures Reconcile(namespace, name, NotFound, replies) == Pass(replies.unbind, [UnbindCall(name, namespace)])
  {
  }

  /** Any other lister error is returned as is, before any call. */
  lemma LookupErrorSurfaces(namespace: string, name: string, err: string, replies: Replies)
    ensures Reconcile(namespace, name, LookupError(err), replies) == Pass(Failure(err), [])
  {
  }

  /** A failed allocation stops the pass before `Bind` and before any status write. */
  lemma AllocationFailureStops(namespace: string, name: string, svc: Service, replies: Replies)
    requires DesiredIp(svc) == "" && replies.available.Err?
    ensures Reconcile(namespace, name, Found(svc), replies)
            == Pass(Failure(replies.available.error), [GetAvailableIpCall])
  {
  }

  /**
   * Every pass over a found Service that gets an IP calls `Bind` exactly once with that IP,
   * asks the pool only when the Service names no IP, and writes no status when `Bind` fails.
   */
  lemma BindOnce(namespace: string, name: string, svc: Service, replies: Replies)
    requires DesiredIp(svc) != "" || replies.available.Ok?
    ensures var p := Reconcile(namespace, name, Found(svc), replies);
            var k := if DesiredIp(svc) == "" then 1 else 0;
            && k < |p.calls|
            && p.calls[k] == BindCall(name, namespace, BoundIp(svc, replies))
            && (forall j :: 0 <= j < |p.calls| && j != k ==> !p.calls[j].BindCall?)
            && (k == 1 <==> p.calls[0] == GetAvailableIpCall)
            && (replies.bind.Failure? ==> p == Pass(replies.bind, p.calls[..k + 1]))
  {
  }

  /**
   * After a successful `Bind`, the status is written exactly when it does not already carry
   * the bound IP first, and the written status holds that IP alone.
   */
  lemma StatusWriteIff(namespace: string, name: string, svc: Service, replies: Replies)
    requires DesiredIp(svc) != "" || replies.available.Ok?
    requires replies.bind == Success
    ensures var p := Reconcile(namespace, name, Found(svc), replies);
            var lb := BoundIp(svc, replies);
            && (Writes(p.calls) <==> NeedsStatusWrite(svc, lb))
            && (NeedsStatusWrite(svc, lb) ==>
                  p.calls[|p.calls| - 1] == UpdateStatusCall(namespace, WithIngress(svc, lb))
                  && p.result == replies.updateStatus)
            && (!NeedsStatusWrite(svc, lb) ==> p.result == Success)
  {
    var p := Reconcile(namespace, name, Found(svc), replies);
    var lb := BoundIp(svc, replies);
    if NeedsStatusWrite(svc, lb) {
      assert p.calls[|p.calls| - 1].UpdateStatusCall?;
    }
  }

  /**
   * Idempotence: reconciling the Service as the first pass wrote it binds the same IP again
   * and writes nothing, provided that IP is not "".
   */
  lemma SecondPassWritesNothing(namespace: string, name: string, svc: Service, first: Replies, second: Replies)
    requires DesiredIp(svc) != "" || first.available.Ok?
    requires first.bind == Success && second.bind == Success
    requires BoundIp(svc, first) != ""
    ensures var lb := BoundIp(svc, first);
            Reconcile(namespace, name, Found(WithIngress(svc, lb)), second)
            == Pass(Success, [BindCall(name, namespace, lb)])
  {
  }

  /** The operator's IP wins over the reported one. */
  lemma OverrideWins(svc: Service, replies: Replies)
    requires svc.ingress == [Ingress("10.0.0.5")] && svc.loadBalancerIP == "10.0.0.9"
    requires replies.bind == Success
    ensures Reconcile(svc.namespace, svc.name, Found(svc), replies)
            == Pass(replies.updateStatus, [BindCall(svc.name, svc.namespace, "10.0.0.9"),
                                           UpdateStatusCall(svc.namespace, WithIngress(svc, "10.0.0.9"))])
  {
  }

  /** A new Service with no IP anywhere takes the pool's first free IP and records it. */
  lemma FreshServiceScenario(svc: Service, replies: Replies)
    requires svc == Service("default", "web", ServiceTypeLoadBalancer, "1", "", [])
    requires replies.available == Ok("10.0.0.1") && replies.bind == Success && replies.updateStatus == Success
    ensures Reconcile("default", "web", Found(svc), replies)
            == Pass(Success, [GetAvailableIpCall, BindCall("web", "default", "10.0.0.1"),
                              UpdateStatusCall("default", svc.(ingress := [Ingress("10.0.0.1")]))])
  {
  }

  // ---------------------------------------------------------------------------
  // State

  predicate Distinct(keys: seq<string>) {
    forall i, j :: 0 <= i < j < |keys| ==> keys[i] != keys[j]
  }

  /** The work queue after `Add(key)`: a key already waiting is not queued twice. */
  function Added(queue: seq<string>, key: string): (q: seq<string>)
    ensures key in q && (forall k :: k in q <==> k in queue || k == key)
    ensures Distinct(queue) ==> Distinct(q)
    ensures key in queue ==> q == queue
  {
    if key in queue then queue else queue + [key]
  }

  /** The work queue after a handler's decision; a queue that is shutting down ignores `Add`. */
  function AfterHandled(queue: seq<string>, shuttingDown: bool, h: Handled): seq<string> {
    if h.Enqueued? && !shuttingDown then Added(queue, h.key) else queue
  }

  /**
   * The controller: its work queue, whether the queue is shutting down, the keys passed
   * to `Done` and the calls made to the allocation client and the status writer.
   */
  class Controller {
    var queue: seq<string>
    var shuttingDown: bool
    var done: seq<string>
    var calls: seq<Call>

    ghost predicate Valid()
      reads this
    {
      Distinct(queue)
    }

    constructor ()
      ensures Valid()
      ensures queue == [] && !shuttingDown && done == [] && calls == []
    {
      queue, shuttingDown, done, calls := [], false, [], [];
    }

    /** The work queue's `Add`: ignored once the queue is shutting down. */
    method Add(key: string)
      requires Valid()
      modifies this
      ensures Valid()
      ensures old(shuttingDown) ==> queue == old(queue)
      ensures !old(shuttingDown) ==> queue == Added(old(queue), key)
      ensures shuttingDown == old(shuttingDown) && done == old(done) && calls == old(calls)
    {
      if !shuttingDown && key !in queue {
        queue := queue + [key];
      }
    }

    /** The work queue's `ShutDown`; the controller itself never calls it (see README). */
    method ShutDown()
      modifies this
      ensures shuttingDown
      ensures queue == old(queue) && done == old(done) && calls == old(calls)
    {
      shuttingDown := true;
    }

    /** `addService`. */
    method AddService(obj: Object) returns (h: Handled)
      requires Valid()
      modifies this
      ensures Valid()
      ensures h == AddDecision(obj)
      ensures queue == AfterHandled(old(queue), old(shuttingDown), h)
      ensures shuttingDown == old(shuttingDown) && done == old(done) && calls == old(calls)
    {
      if !obj.ServiceObject? {
        return Panicked;
      }
      var service := obj.service;
      if service.serviceType != ServiceTypeLoadBalancer {
        return Ignored;
      }
      var key := ServiceKey(service);
      Add(key);
      return Enqueued(key);
    }

    /** `updateService`. */
    method UpdateService(oldService: Service, newService: Service) returns (h: Handled)
      requires Valid()
      modifies this
      ensures Valid()
      ensures h == UpdateDecision(oldService, newService)
      ensures queue == AfterHandled(old(queue), old(shuttingDown), h)
      ensures shuttingDown == old(shuttingDown) && done == old(done) && calls == old(calls)
    {
      if oldService.resourceVersion == newService.resourceVersion {
        return Ignored;
      }
      h := AddService(ServiceObject(newService));
    }

    /** `deleteService`, with the tombstone's Service passed on (see `DeleteDecisionAsWritten`). */
    method DeleteService(obj: Object) returns (h: Handled)
      requires Valid()
      modifies this
      ensures Valid()
      ensures h == DeleteDecision(obj)
      ensures queue == AfterHandled(old(queue), old(shuttingDown), h)
      ensures shuttingDown == old(shuttingDown) && done == old(done) && calls == old(calls)
    {
      if obj.ServiceObject? {
        h := AddService(obj);
        return;
      }
      if !obj.Tombstone? {
        return Ignored;
      }
      if !obj.obj.ServiceObject? {
        return Ignored;
      }
      h := AddService(obj.obj);
    }

    /** `syncLoadBalance`: logs each call it makes and returns the first error. */
    method SyncLoadBalance(namespace: string, name: string, lookup: Lookup, replies: Replies) returns (err: Outcome)
      modifies this
      ensures var p := Reconcile(namespace, name, lookup, replies);
              err == p.result && calls == old(calls) + p.calls
      ensures queue == old(queue) && shuttingDown == old(shuttingDown) && done == old(done)
    {
      if lookup.NotFound? {
        calls := calls + [UnbindCall(name, namespace)];
        return replies.unbind;
      }
      if lookup.LookupError? {
        return Failure(lookup.err);
      }
      var service := lookup.service;
      var lb := "";
      if |service.ingress| > 0 {
        lb := service.ingress[0].ip;
      }
      if service.loadBalancerIP != "" {
        lb := service.loadBalancerIP;
      }
      if lb == "" {
        calls := calls + [GetAvailableIpCall];
        if replies.available.Err? {
          return Failure(replies.available.error);
        }
        lb := replies.available.value;
      }
      calls := calls + [BindCall(name, namespace, lb)];
      if replies.bind.Failure? {
        return replies.bind;
      }
      if |service.ingress| == 0 || service.ingress[0].ip != lb {
        service := service.(ingress := [Ingress(lb)]);
        calls := calls + [UpdateStatusCall(namespace, service)];
        if replies.updateStatus.Failure? {
          return replies.updateStatus;
        }
      }
      return Success;
    }

    /**
     * `processNextItem`: takes the head key, splits it (`split` is what `SplitMetaNamespaceKey`
     * returns for it), reconciles it and calls `Done` on it. On an empty queue that is shutting
     * down it returns false; on an empty queue that is not, `Get` would block forever.
     */
    method ProcessNextItem(split: Result<(string, string)>, lookup: Lookup, replies: Replies) returns (more: bool)
      requires Valid()
      requires |queue| > 0 || shuttingDown
      modifies this
      ensures Valid()
      ensures shuttingDown == old(shuttingDown)
      ensures old(queue) == [] ==> !more && queue == [] && done == old(done) && calls == old(calls)
      ensures old(queue) != [] ==>
                && queue == old(queue)[1..]
                && done == old(done) + [old(queue)[0]]
                && (split.Err? ==> !more && calls == old(calls))
                && (split.Ok? ==>
                      var p := Reconcile(split.value.0, split.value.1, lookup, replies);
                      more == (p.result == Success) && calls == old(calls) + p.calls)
    {
      if queue == [] {
        return false;
      }
      var key := queue[0];
      queue := queue[1..];
      if split.Err? {
        done := done + [key];
        return false;
      }
      var (namespace, name) := split.value;
      var err := SyncLoadBalance(namespace, name, lookup, replies);
      done := done + [key];
      more := err == Success;
    }
  }
}
