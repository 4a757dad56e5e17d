/** The Deployment controller of controller.go: one `processItems` step on a
    dequeued key, its `syncDeployment` and the shared `createIngress`. Each
    method is tied to a function of the cluster's state before the call, and
    the lemmas below state what that function promises. */
module Workload {
  import opened Strconv
  import opened Exposure
  import opened Api

  /** `createIngress` (controller.go:190-253): re-read the Deployment named
      after the Service, derive path and port from its labels, create the
      Ingress; an Ingress that already exists counts as success. */
  function CreateIngressSpec(s: Store, svc: Service): Outcome<Status> {
    var got := s.GetDeployment(svc.meta);
    if got.status != Ok then Outcome(s, got.status)
    else
      var created := s.CreateIngress(svc.meta.namespace, IngressFor(svc.meta, got.obj.labels));
      var st := created.result.status;
      Outcome(created.store, if st == AlreadyExists then Ok else st)
  }

  /** `syncDeployment` (controller.go:113-188): read the Deployment from the
      cache, create its Service; an existing Service ends the call with
      success; a new one is followed by the Ingress when ingReq is "needed". */
  function SyncDeploymentSpec(s: Store, k: Key): Outcome<Status> {
    var got := s.ListDeployment(k);
    if got.status != Ok then Outcome(s, got.status)
    else
      var dep := got.obj;
      var created := s.CreateService(k.namespace, ServiceFor(dep));
      var st := created.result.status;
      if st == AlreadyExists then Outcome(created.store, Ok)
      else if st != Ok then Outcome(created.store, st)
      else if IngressRequested(dep.labels) then CreateIngressSpec(created.store, created.result.obj)
      else Outcome(created.store, Ok)
  }

  /** `processItems` (controller.go:69-111). A Deployment the API server
      reports NotFound is torn down: Service first, then Ingress, each
      error ending the step. Any other answer takes the add path. */
  function ProcessItemsSpec(s: Store, item: Dequeued): Outcome<bool> {
    match item
    case Shutdown => Outcome(s, false)
    case Item(_, split) =>
      if split.None? then Outcome(s, false)
      else
        var k := split.value;
        if s.GetDeployment(k).status == NotFound then
          var delSvc := s.DeleteService(k);
          if delSvc.result != Ok then Outcome(delSvc.store, false)
          else
            var delIng := delSvc.store.DeleteIngress(k);
            Outcome(delIng.store, delIng.result == Ok)
        else
          var sync := SyncDeploymentSpec(s, k);
          Outcome(sync.store, sync.result == Ok)
  }

  method CreateIngress(client: Cluster, svc: Service) returns (err: Status)
    modifies client
    ensures Outcome(client.Snapshot(), err) == CreateIngressSpec(old(client.Snapshot()), svc)
  {
    var path := RootPath;
    var dep, getErr := client.GetDeployment(svc.meta);
    if getErr != Ok {
      return getErr;
    }
    var port := ScanLabel(dep.labels, PortKey, DefaultPort);
    if port == BooksPort {
      path := BooksPath;
    }
    var portInt := Atoi(port);
    var ingress := Ingress(svc.meta, [Rule(svc.meta.name + DomainSuffix,
      [HttpPath(path, Exact, Backend(svc.meta.name, ToInt32(portInt)))])]);
    var ing, createErr := client.CreateIngress(svc.meta.namespace, ingress);
    if createErr == AlreadyExists {
      return Ok;
    }
    return createErr;
  }

  class Controller {
    const cluster: Cluster

    constructor (cluster: Cluster)
      ensures this.cluster == cluster
    {
      this.cluster := cluster;
    }

    method ProcessItems(item: Dequeued) returns (more: bool)
      modifies cluster
      ensures Outcome(cluster.Snapshot(), more) == ProcessItemsSpec(old(cluster.Snapshot()), item)
    {
      if item.Shutdown? {
        return false;
      }
      // A key function error is only logged (controller.go:76-78).
      if item.split.None? {
        return false;
      }
      var key := item.split.value;
      var dep, err := cluster.GetDeployment(key);
      if err == NotFound {
        err := cluster.DeleteService(key);
        if err != Ok {
          return false;
        }
        err := cluster.DeleteIngress(key);
        if err != Ok {
          return false;
        }
        return true;
      }
      err := SyncDeployment(key.namespace, key.name);
      if err != Ok {
        return false;
      }
      return true;
    }

    method SyncDeployment(ns: string, name: string) returns (err: Status)
      modifies cluster
      ensures Outcome(cluster.Snapshot(), err) == SyncDeploymentSpec(old(cluster.Snapshot()), Key(ns, name))
    {
      var dep, listErr := cluster.ListDeployment(Key(ns, name));
      if listErr != Ok {
        return listErr;
      }
      var port := ScanLabel(dep.labels, PortKey, DefaultPort);
      var portInt := Atoi(port);
      var svc := Service(dep.meta, dep.templateLabels, [ServicePort(HttpPortName, ToInt32(portInt))]);
      var service, createErr := cluster.CreateService(ns, svc);
      if createErr == AlreadyExists {
        return Ok;
      }
      if createErr != Ok {
        return createErr;
      }
      var ingReq := ScanLabel(dep.labels, IngReqKey, NotNeeded);
      if ingReq == Needed {
        err := CreateIngress(cluster, service);
        return err;
      }
      return Ok;
    }
  }

  // ----- What one step promises -----

  /** `createIngress` writes Ingresses only, and only by adding the Ingress
      derived from the authoritative Deployment's labels under the Service's
      key. A failed Deployment read is returned as it is, and any error leaves
      the store unchanged; a failing create call is returned as Unavailable,
      and a port label the server refuses gives Invalid even when the Ingress
      exists. On a healthy cluster with that Deployment
      present and a valid port label it succeeds. */
  lemma CreateIngressEffect(s: Store, svc: Service)
    ensures var r := CreateIngressSpec(s, svc);
      && r.store.deps == s.deps && r.store.cache == s.cache
      && r.store.svcs == s.svcs && r.store.faults == s.faults
      && (s.Valid() ==> r.store.Valid())
      && (r.store.ings != s.ings ==>
            && r.result == Ok && svc.meta in s.deps && svc.meta !in s.ings
            && r.store.ings == s.ings[svc.meta := IngressFor(svc.meta, s.deps[svc.meta].labels)])
      && (r.result != Ok ==> r.store == s)
      && (s.GetDeployment(svc.meta).status != Ok ==> r == Outcome(s, s.GetDeployment(svc.meta).status))
      && ((s.GetDeployment(svc.meta).status == Ok && Call(Create, Ingresses, svc.meta) in s.faults)
             ==> r == Outcome(s, Unavailable))
      && ((s.GetDeployment(svc.meta).status == Ok && Call(Create, Ingresses, svc.meta) !in s.faults
             && !PortLabelValid(s.deps[svc.meta].labels)) ==> r == Outcome(s, Invalid))
      && ((s.faults == {} && svc.meta.name != "" && svc.meta in s.deps
             && PortLabelValid(s.deps[svc.meta].labels)) ==> r.result == Ok && svc.meta in r.store.ings)
  {
    var got := s.GetDeployment(svc.meta);
    if got.status == Ok {
      var ing := IngressFor(svc.meta, got.obj.labels);
      assert ing.meta == svc.meta;
      assert Key(svc.meta.namespace, ing.meta.name) == svc.meta;
      DerivedObjectsAcceptable(got.obj, svc.meta, got.obj.labels);
    }
  }

  /** `syncDeployment` keeps Deployments, cache and failures, and the store
      invariant. */
  lemma SyncDeploymentFrame(s: Store, k: Key)
    ensures var r := SyncDeploymentSpec(s, k);
      && r.store.deps == s.deps && r.store.cache == s.cache && r.store.faults == s.faults
      && (s.Valid() ==> r.store.Valid())
  {
    var got := s.ListDeployment(k);
    if got.status == Ok {
      var created := s.CreateService(k.namespace, ServiceFor(got.obj));
      if created.result.status == Ok {
        CreateIngressEffect(created.store, created.result.obj);
      }
    }
  }

  /** What `syncDeployment` may add: at most the Service derived from the
      cached Deployment and at most the Ingress for it, the latter only with a
      new Service and a "needed" ingReq label. Success means the Service
      exists and the cached port label is one the server accepts. */
  lemma SyncDeploymentEffect(s: Store, k: Key)
    requires s.Valid()
    ensures var r := SyncDeploymentSpec(s, k);
      && (r.store.svcs == s.svcs ||
            (k !in s.svcs && k in s.cache && r.store.svcs == s.svcs[k := ServiceFor(s.cache[k])]))
      && (r.store.ings != s.ings ==>
            && k !in s.svcs && k in s.cache && IngressRequested(s.cache[k].labels)
            && k in s.deps && k !in s.ings
            && r.store.ings == s.ings[k := IngressFor(k, s.deps[k].labels)])
      && (r.result == Ok ==>
            && k in r.store.svcs && k in s.cache && PortLabelValid(s.cache[k].labels)
            && (k !in s.svcs ==> IngressRequested(s.cache[k].labels) ==> k in r.store.ings))
  {
    var r := SyncDeploymentSpec(s, k);
    var got := s.ListDeployment(k);
    if got.status != Ok {
      assert r == Outcome(s, got.status);
      return;
    }
    var dep := got.obj;
    assert dep == s.cache[k] && dep.meta == k;
    DerivedObjectsAcceptable(dep, k, dep.labels);
    var created := s.CreateService(k.namespace, ServiceFor(dep));
    if created.result.status != Ok {
      assert r.store == s;
      return;
    }
    var mid := created.store;
    var svc := created.result.obj;
    assert svc == ServiceFor(dep) && svc.meta == k;
    assert mid == s.(svcs := s.svcs[k := svc]);
    if IngressRequested(dep.labels) {
      assert r == CreateIngressSpec(mid, svc);
      CreateIngressEffect(mid, svc);
    } else {
      assert r == Outcome(mid, Ok);
    }
  }

  /** Teardown is strict: when the Deployment is gone, a Service delete that
      fails for any reason (NotFound included) ends the step with false and
      leaves the Ingress alone; the Ingress is deleted only after the Service
      was, and the step succeeds only if both deletes did. */
  lemma TeardownIsStrict(s: Store, k: Key, keyFuncFailed: bool)
    requires s.GetDeployment(k).status == NotFound
    ensures var r := ProcessItemsSpec(s, Item(keyFuncFailed, Some(k)));
      && (k !in s.svcs || Call(Delete, Services, k) in s.faults ==> r == Outcome(s, false))
      && (k in s.svcs && Call(Delete, Services, k) !in s.faults ==>
            && r.store.svcs == s.svcs - {k}
            && r.store.deps == s.deps && r.store.cache == s.cache
            && (r.result <==> k in s.ings && Call(Delete, Ingresses, k) !in s.faults)
            && r.store.ings == (if r.result then s.ings - {k} else s.ings))
  {
  }

  /** An Ingress never disappears in a step that kept its Service. */
  lemma IngressDeletedOnlyAfterService(s: Store, item: Dequeued, k: Key)
    requires k in s.ings
    ensures var r := ProcessItemsSpec(s, item);
      k !in r.store.ings ==> k in s.svcs && k !in r.store.svcs && r.result
  {
  }

  /** On a healthy cluster a Deployment without a Service, whose port labels
      the server accepts, gets exactly its derived Service and, when ingReq is
      "needed" and no Ingress exists yet, the Ingress derived from the
      authoritative labels; nothing else changes. */
  lemma AddOnHealthyCluster(s: Store, k: Key, keyFuncFailed: bool)
    requires s.Valid() && s.faults == {}
    requires k in s.deps && k in s.cache && k !in s.svcs
    requires PortLabelValid(s.cache[k].labels)
    requires IngressRequested(s.cache[k].labels) ==> PortLabelValid(s.deps[k].labels)
    ensures ProcessItemsSpec(s, Item(keyFuncFailed, Some(k))) ==
      Outcome(s.(svcs := s.svcs[k := ServiceFor(s.cache[k])],
                 ings := if IngressRequested(s.cache[k].labels) && k !in s.ings
                         then s.ings[k := IngressFor(k, s.deps[k].labels)] else s.ings), true)
  {
    var r := SyncDeploymentSpec(s, k);
    SyncDeploymentFrame(s, k);
    SyncDeploymentEffect(s, k);
    var created := s.CreateService(k.namespace, ServiceFor(s.cache[k]));
    assert ServiceFor(s.cache[k]).meta == k;
    DerivedObjectsAcceptable(s.cache[k], k, s.cache[k].labels);
    assert created.result.status == Ok;
    if IngressRequested(s.cache[k].labels) {
      CreateIngressEffect(created.store, created.result.obj);
      assert k in r.store.ings;
    }
    assert r.result == Ok;
  }

  /** A Service that already exists ends the add path with success and no
      change at all, even when ingReq is "needed" and no Ingress exists. */
  lemma ExistingServiceExitsEarly(s: Store, k: Key, keyFuncFailed: bool)
    requires s.Valid()
    requires s.GetDeployment(k).status != NotFound
    requires k in s.cache && k in s.svcs && PortLabelValid(s.cache[k].labels)
    requires Call(Create, Services, k) !in s.faults
    ensures ProcessItemsSpec(s, Item(keyFuncFailed, Some(k))) == Outcome(s, true)
  {
    DerivedObjectsAcceptable(s.cache[k], k, s.cache[k].labels);
  }

  /** A cached port label the server refuses (a malformed one gives port 0)
      makes every add step fail with no change, whether or not the Service
      exists: the server refuses the Service before it looks for the key. */
  lemma InvalidPortFailsAdd(s: Store, k: Key, keyFuncFailed: bool)
    requires s.GetDeployment(k).status != NotFound
    requires k in s.cache && !PortLabelValid(s.cache[k].labels)
    ensures ProcessItemsSpec(s, Item(keyFuncFailed, Some(k))) == Outcome(s, false)
  {
    DerivedObjectsAcceptable(s.cache[k], k, s.cache[k].labels);
  }

  /** A stale cache that lost the Deployment makes the add path fail with
      no change, although the API server still has it. */
  lemma StaleCacheFails(s: Store, k: Key, keyFuncFailed: bool)
    requires k in s.deps && k !in s.cache && s.GetDeployment(k).status == Ok
    ensures ProcessItemsSpec(s, Item(keyFuncFailed, Some(k))) == Outcome(s, false)
  {
  }

  /** On the add path an Ingress appears only when the Service was created
      in this step and the cached Deployment's ingReq label is "needed"; it
      is the Ingress derived from the authoritative Deployment's labels. */
  lemma IngressOnlyWithNewService(s: Store, k: Key, keyFuncFailed: bool)
    requires s.Valid()
    requires s.GetDeployment(k).status != NotFound
    ensures var r := ProcessItemsSpec(s, Item(keyFuncFailed, Some(k)));
      r.store.ings != s.ings ==>
        && k !in s.svcs && k in s.cache && IngressRequested(s.cache[k].labels)
        && k in s.deps && k !in s.ings
        && r.store.ings == s.ings[k := IngressFor(k, s.deps[k].labels)]
  {
    SyncDeploymentEffect(s, k);
  }

  /** The add path reaches its goal when it reports success: the Service
      exists, and when this step created it, it is the Service derived from
      the cached Deployment and the Ingress exists if it was requested. */
  lemma AddPathSuccess(s: Store, k: Key, keyFuncFailed: bool)
    requires s.Valid()
    requires s.GetDeployment(k).status != NotFound
    ensures var r := ProcessItemsSpec(s, Item(keyFuncFailed, Some(k)));
      r.result ==>
        && k in r.store.svcs
        && (forall j | j in s.svcs :: j in r.store.svcs && r.store.svcs[j] == s.svcs[j])
        && (k !in s.svcs ==>
              && r.store.svcs == s.svcs[k := ServiceFor(s.cache[k])]
              && (IngressRequested(s.cache[k].labels) ==> k in r.store.ings))
  {
    SyncDeploymentEffect(s, k);
  }

  /** The controller never writes Deployments, the cache or the failure set;
      the store invariant is kept. */
  lemma OnlyExposureObjectsChange(s: Store, item: Dequeued)
    ensures var r := ProcessItemsSpec(s, item);
      r.store.deps == s.deps && r.store.cache == s.cache && r.store.faults == s.faults
    ensures s.Valid() ==> ProcessItemsSpec(s, item).store.Valid()
  {
    if item.Item? && item.split.Some? {
      SyncDeploymentFrame(s, item.split.value);
    }
  }

  /** A key function error does not change what the step does. */
  lemma KeyFuncErrorIgnored(s: Store, split: Option<Key>)
    ensures ProcessItemsSpec(s, Item(true, split)) == ProcessItemsSpec(s, Item(false, split))
  {
  }

  /** On a healthy cluster with the Deployment present and port labels the
      server accepts, one step succeeds and a second step on the same key
      succeeds without changing anything. */
  lemma AddIsIdempotent(s: Store, k: Key, keyFuncFailed: bool)
    requires s.Valid() && s.faults == {}
    requires k in s.deps && k in s.cache && PortLabelValid(s.cache[k].labels)
    requires IngressRequested(s.cache[k].labels) ==> PortLabelValid(s.deps[k].labels)
    ensures var item := Item(keyFuncFailed, Some(k));
      var r := ProcessItemsSpec(s, item);
      r.result && ProcessItemsSpec(r.store, item) == Outcome(r.store, true)
  {
    var item := Item(keyFuncFailed, Some(k));
    var r := ProcessItemsSpec(s, item);
    if k in s.svcs {
      ExistingServiceExitsEarly(s, k, keyFuncFailed);
    } else {
      AddOnHealthyCluster(s, k, keyFuncFailed);
    }
    assert r.result;
    AddPathSuccess(s, k, keyFuncFailed);
    OnlyExposureObjectsChange(s, item);
    ExistingServiceExitsEarly(r.store, k, keyFuncFailed);
  }

  /** Repeating a teardown that removed the Service fails: the second step
      finds no Service and reports false, changing nothing. */
  lemma RepeatedTeardownFails(s: Store, k: Key, keyFuncFailed: bool)
    requires s.Valid() && s.faults == {}
    requires k.name != "" && k !in s.deps && k in s.svcs
    ensures var item := Item(keyFuncFailed, Some(k));
      var r := ProcessItemsSpec(s, item);
      && r.store.svcs == s.svcs - {k} && k !in r.store.ings
      && (r.result <==> k in s.ings)
      && ProcessItemsSpec(r.store, item) == Outcome(r.store, false)
  {
  }

  /** A failed Ingress create after a new Service leaves a gap that the
      controller never closes: the next step finds the Service and succeeds
      without creating the Ingress. */
  lemma IngressGapPersists(s: Store, k: Key, keyFuncFailed: bool)
    requires s.Valid() && s.faults == {Call(Create, Ingresses, k)}
    requires k in s.deps && k in s.cache && IngressRequested(s.cache[k].labels)
    requires PortLabelValid(s.cache[k].labels)
    requires k !in s.svcs && k !in s.ings
    ensures var item := Item(keyFuncFailed, Some(k));
      var r := ProcessItemsSpec(s, item);
      var healed := r.store.(faults := {});
      && !r.result && k in r.store.svcs && k !in r.store.ings
      && ProcessItemsSpec(healed, item) == Outcome(healed, true)
  {
    var item := Item(keyFuncFailed, Some(k));
    var r := ProcessItemsSpec(s, item);
    var healed := r.store.(faults := {});
    var sync := SyncDeploymentSpec(s, k);
    SyncDeploymentEffect(s, k);
    assert sync.result != Ok;
    ExistingServiceExitsEarly(healed, k, keyFuncFailed);
  }
}
