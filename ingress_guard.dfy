/** The Ingress guard of controller_ing.go: a deleted Ingress is recreated,
    through the shared `createIngress`, when the Service of the same key
    still exists. */
module IngressGuard {
  import opened Exposure
  import opened Api
  import Workload

  /** `ingCtrller.processItems` (controller_ing.go:61-92). Any answer but
      NotFound for the Service goes on to `createIngress` with the object the
      client returned; ingReq is never consulted. */
  function ProcessItemsSpec(s: Store, item: Dequeued): Outcome<bool> {
    match item
    case Shutdown => Outcome(s, false)
    case Item(keyFuncFailed, split) =>
      if keyFuncFailed || split.None? then Outcome(s, false)
      else
        var k := split.value;
        var got := s.GetService(k);
        if got.status == NotFound then Outcome(s, true)
        else
          var created := Workload.CreateIngressSpec(s, got.obj);
          Outcome(created.store, created.result == Ok)
  }

  class Controller {
    const cluster: Cluster

    constructor (cluster: Cluster)
      ensures this.cluster == cluster
    {
      this.cluster := cluster;
    }

    method ProcessItems(item: Dequeued) returns (more: bool)
      modifies cluster
      ensures Outcome(cluster.Snapshot(), more) == ProcessItemsSpec(old(cluster.Snapshot()), item)
    {
      if item.Shutdown? {
        return false;
      }
      if item.keyFuncFailed {
        return false;
      }
      if item.split.None? {
        return false;
      }
      var key := item.split.value;
      var service, err := cluster.GetService(key);
      if err == NotFound {
        return true;
      }
      var ingError := Workload.CreateIngress(cluster, service);
      if ingError != Ok {
        return false;
      }
      return true;
    }
  }

  /** An Ingress whose Service is gone is not recreated: success, no change. */
  lemma ServiceGoneIsNoop(s: Store, k: Key)
    requires s.GetService(k).status == NotFound
    ensures ProcessItemsSpec(s, Item(false, Some(k))) == Outcome(s, true)
  {
  }

  /** A key that cannot be derived or split fails the step with no change. */
  lemma BadKeyFails(s: Store, item: Dequeued)
    requires item.Item? && (item.keyFuncFailed || item.split.None?)
    ensures ProcessItemsSpec(s, item) == Outcome(s, false)
  {
  }

  /** A failed Service read goes on with the empty Service the client
      returns; `createIngress` then cannot read a Deployment without a name,
      so the step fails with no change. */
  lemma ServiceReadFailureFails(s: Store, k: Key)
    requires s.GetService(k).status != NotFound && s.GetService(k).status != Ok
    ensures ProcessItemsSpec(s, Item(false, Some(k))) == Outcome(s, false)
  {
  }

  /** With the Service and the Deployment present, the missing Ingress is
      created whatever the Deployment's ingReq label says, with path and port
      derived from the Deployment's current labels (when the server accepts
      that port). */
  lemma RecreatesRegardlessOfIntent(s: Store, k: Key)
    requires s.Valid() && s.faults == {}
    requires k in s.svcs && k in s.deps && k !in s.ings && PortLabelValid(s.deps[k].labels)
    ensures ProcessItemsSpec(s, Item(false, Some(k))) ==
      Outcome(s.(ings := s.ings[k := IngressFor(k, s.deps[k].labels)]), true)
  {
    assert IngressFor(k, s.deps[k].labels).meta == k;
  }

  /** The Deployment is re-read: without it nothing is created and the step
      fails. */
  lemma DeploymentGoneFails(s: Store, k: Key)
    requires s.Valid() && s.faults == {}
    requires k in s.svcs && k !in s.deps
    ensures ProcessItemsSpec(s, Item(false, Some(k))) == Outcome(s, false)
  {
  }

  /** An Ingress that already exists counts as success, with no change. */
  lemma ExistingIngressSucceeds(s: Store, k: Key)
    requires s.Valid() && s.faults == {}
    requires k in s.svcs && k in s.deps && k in s.ings && PortLabelValid(s.deps[k].labels)
    ensures ProcessItemsSpec(s, Item(false, Some(k))) == Outcome(s, true)
  {
    assert IngressFor(k, s.deps[k].labels).meta == k;
  }

  /** A port label on the Deployment that the server refuses fails the step
      with no change, even when the Ingress is already there. */
  lemma InvalidPortFails(s: Store, k: Key)
    requires s.Valid() && s.faults == {}
    requires k in s.svcs && k in s.deps && !PortLabelValid(s.deps[k].labels)
    ensures ProcessItemsSpec(s, Item(false, Some(k))) == Outcome(s, false)
  {
    Workload.CreateIngressEffect(s, s.svcs[k]);
  }

  /** A step that returns false leaves the store as it was. */
  lemma FailureChangesNothing(s: Store, item: Dequeued)
    ensures !ProcessItemsSpec(s, item).result ==> ProcessItemsSpec(s, item).store == s
  {
    if item.Item? && !item.keyFuncFailed && item.split.Some? {
      Workload.CreateIngressEffect(s, s.GetService(item.split.value).obj);
    }
  }

  /** The guard only ever adds an Ingress: Deployments, cache, Services and
      existing Ingresses stay as they were, and the store invariant is kept. */
  lemma OnlyAddsIngresses(s: Store, item: Dequeued)
    ensures var r := ProcessItemsSpec(s, item);
      && r.store.deps == s.deps && r.store.cache == s.cache
      && r.store.svcs == s.svcs && r.store.faults == s.faults
      && (forall j | j in s.ings :: j in r.store.ings && r.store.ings[j] == s.ings[j])
      && (s.Valid() ==> r.store.Valid())
  {
    if item.Item? && !item.keyFuncFailed && item.split.Some? {
      Workload.CreateIngressEffect(s, s.GetService(item.split.value).obj);
    }
  }
}
