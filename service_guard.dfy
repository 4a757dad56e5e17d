/** The Service guard of controller_svc.go: a deleted Service is recreated
    when the Deployment of the same key still exists. */
module ServiceGuard {
  import opened Strconv
  import opened Exposure
  import opened Api

  /** `svcCtrller.processItems` (controller_svc.go:62-117). Any answer but
      NotFound for the Deployment goes on to the create, with the empty
      object the client returns on error; every create error, AlreadyExists
      included, makes the step fail. */
  function ProcessItemsSpec(s: Store, item: Dequeued): Outcome<bool> {
    match item
    case Shutdown => Outcome(s, false)
    case Item(keyFuncFailed, split) =>
      if keyFuncFailed || split.None? then Outcome(s, false)
      else
        var k := split.value;
        var got := s.GetDeployment(k);
        if got.status == NotFound then Outcome(s, true)
        else
          var created := s.CreateService(k.namespace, ServiceFor(got.obj));
          Outcome(created.store, created.result.status == Ok)
  }

  class Controller {
    const cluster: Cluster

    constructor (cluster: Cluster)
      ensures this.cluster == cluster
    {
      this.cluster := cluster;
    }

    method ProcessItems(item: Dequeued) returns (more: bool)
      modifies cluster
      ensures Outcome(cluster.Snapshot(), more) == ProcessItemsSpec(old(cluster.Snapshot()), item)
    {
      if item.Shutdown? {
        return false;
      }
      if item.keyFuncFailed {
        return false;
      }
      if item.split.None? {
        return false;
      }
      var key := item.split.value;
      var dep, err := cluster.GetDeployment(key);
      if err == NotFound {
        return true;
      }
      var port := ScanLabel(dep.labels, PortKey, DefaultPort);
      var portInt := Atoi(port);
      var svc := Service(dep.meta, dep.templateLabels, [ServicePort(HttpPortName, ToInt32(portInt))]);
      var service, createErr := cluster.CreateService(key.namespace, svc);
      if createErr != Ok {
        return false;
      }
      return true;
    }
  }

  /** A Service whose Deployment is gone was cleaned up on purpose: success,
      no change. */
  lemma DeploymentGoneIsNoop(s: Store, k: Key)
    requires s.GetDeployment(k).status == NotFound
    ensures ProcessItemsSpec(s, Item(false, Some(k))) == Outcome(s, true)
  {
  }

  /** A key that cannot be derived or split fails the step with no change. */
  lemma BadKeyFails(s: Store, item: Dequeued)
    requires item.Item? && (item.keyFuncFailed || item.split.None?)
    ensures ProcessItemsSpec(s, item) == Outcome(s, false)
  {
  }

  /** With the Deployment present, its port label one the server accepts,
      and the Service missing, the Service created is the one
      `syncDeployment` derives from that Deployment. */
  lemma RecreatesDerivedService(s: Store, k: Key)
    requires s.Valid()
    requires k in s.deps && k !in s.svcs && PortLabelValid(s.deps[k].labels)
    requires Call(Get, Deployments, k) !in s.faults && Call(Create, Services, k) !in s.faults
    ensures ProcessItemsSpec(s, Item(false, Some(k))) ==
      Outcome(s.(svcs := s.svcs[k := ServiceFor(s.deps[k])]), true)
  {
    assert ServiceFor(s.deps[k]).meta == k;
    DerivedObjectsAcceptable(s.deps[k], k, s.deps[k].labels);
  }

  /** Any create error fails the step with no change: a Service that is
      already there, a failing create call and a port label the server
      refuses all give false, and so does a failed Deployment read, whose
      empty object has no name for the Service. */
  lemma CreateErrorFails(s: Store, k: Key)
    requires s.Valid()
    requires s.GetDeployment(k).status != NotFound
    requires || k in s.svcs || s.GetDeployment(k).status != Ok
             || Call(Create, Services, k) in s.faults
             || !PortLabelValid(s.GetDeployment(k).obj.labels)
    ensures ProcessItemsSpec(s, Item(false, Some(k))) == Outcome(s, false)
  {
    var got := s.GetDeployment(k);
    if got.status == Ok {
      assert ServiceFor(got.obj).meta == k;
      DerivedObjectsAcceptable(got.obj, k, got.obj.labels);
    }
  }

  /** A step that returns false leaves the store as it was. */
  lemma FailureChangesNothing(s: Store, item: Dequeued)
    ensures !ProcessItemsSpec(s, item).result ==> ProcessItemsSpec(s, item).store == s
  {
  }

  /** The guard only ever adds a Service: Deployments, cache, Ingresses and
      existing Services stay as they were, the only Service it can add is
      the one under the item's own key, and the store invariant is kept. */
  lemma OnlyAddsServices(s: Store, item: Dequeued)
    ensures var r := ProcessItemsSpec(s, item);
      && r.store.deps == s.deps && r.store.cache == s.cache
      && r.store.ings == s.ings && r.store.faults == s.faults
      && (forall j | j in s.svcs :: j in r.store.svcs && r.store.svcs[j] == s.svcs[j])
      && (s.Valid() ==> r.store.Valid())
    ensures s.Valid() ==>
      forall j | j in ProcessItemsSpec(s, item).store.svcs :: j in s.svcs || item.split == Some(j)
  {
    if item.Item? && !item.keyFuncFailed && item.split.Some? {
      var k := item.split.value;
      var got := s.GetDeployment(k);
      if got.status != NotFound {
        var created := s.CreateService(k.namespace, ServiceFor(got.obj));
        assert ProcessItemsSpec(s, item) == Outcome(created.store, created.result.status == Ok);
        if s.Valid() && created.result.status == Ok {
          assert got.obj.meta == k;
          assert created.store.svcs == s.svcs[k := ServiceFor(got.obj)];
        }
      }
    }
  }
}
