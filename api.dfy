/** The cluster the controllers talk to, as an in-memory store: the
    authoritative Deployments, Services and Ingresses keyed by
    (namespace, name), the informer's possibly stale copy of the Deployments,
    and a set of calls that fail for reasons outside the controllers (network,
    throttling). `Store` is the value; `Cluster` holds the same maps as fields
    and answers the client calls by updating them in place. */
module Api {
  import opened Exposure

  datatype Option<T> = None | Some(value: T)

  /** What a worker takes off its queue: the shutdown signal, or an object
      whose key function may fail and whose key may not split into
      (namespace, name). */
  datatype Dequeued = Shutdown | Item(keyFuncFailed: bool, split: Option<Key>)

  /** The error classes a controller distinguishes; `Ok` stands for a nil error. */
  datatype Status = Ok | NotFound | AlreadyExists | Invalid | Unavailable

  datatype Verb = Get | Create | Delete

  datatype Kind = Deployments | Services | Ingresses

  datatype Call = Call(verb: Verb, kind: Kind, key: Key)

  /** A client result: the object (empty on error) and the error. */
  datatype Got<T> = Got(obj: T, status: Status)

  datatype Outcome<T> = Outcome(store: Store, result: T)

  datatype Store = Store(
    deps: map<Key, Deployment>,
    cache: map<Key, Deployment>,
    svcs: map<Key, Service>,
    ings: map<Key, Ingress>,
    faults: set<Call>)
  {
    /** Every object is filed under its own namespace and name, and names are
        never empty. */
    predicate Valid() {
      && (forall k | k in deps :: k.name != "" && deps[k].meta == k)
      && (forall k | k in cache :: k.name != "" && cache[k].meta == k)
      && (forall k | k in svcs :: k.name != "" && svcs[k].meta == k)
      && (forall k | k in ings :: k.name != "" && ings[k].meta == k)
    }

    /** Status of a Get or Delete: the client refuses an empty name before
        sending anything; then an injected failure; then presence decides. */
    function ReadStatus(c: Call, present: bool): Status {
      if c.key.name == "" then Invalid
      else if c in faults then Unavailable
      else if present then Ok
      else NotFound
    }

    /** Status of a Create of an object with metadata `obj` whose other
        fields pass validation exactly when `acceptable`: the server rejects
        an object without a name, with another namespace than the request's
        or with invalid fields, before it looks for a key already taken. */
    function CreateStatus(c: Call, present: bool, obj: Key, acceptable: bool): Status {
      if c in faults then Unavailable
      else if obj.name == "" || (obj.namespace != "" && obj.namespace != c.key.namespace) then Invalid
      else if !acceptable then Invalid
      else if present then AlreadyExists
      else Ok
    }

    function GetDeployment(k: Key): Got<Deployment> {
      var st := ReadStatus(Call(Get, Deployments, k), k in deps);
      if st == Ok then Got(deps[k], Ok) else Got(ZeroDeployment, st)
    }

    /** The lister reads the local cache; it can only miss. */
    function ListDeployment(k: Key): Got<Deployment> {
      if k in cache then Got(cache[k], Ok) else Got(ZeroDeployment, NotFound)
    }

    function GetService(k: Key): Got<Service> {
      var st := ReadStatus(Call(Get, Services, k), k in svcs);
      if st == Ok then Got(svcs[k], Ok) else Got(ZeroService, st)
    }

    function CreateService(ns: string, svc: Service): (r: Outcome<Got<Service>>)
      ensures Valid() ==> r.store.Valid()
    {
      var k := Key(ns, svc.meta.name);
      var st := CreateStatus(Call(Create, Services, k), k in svcs, svc.meta, ServiceAcceptable(svc));
      if st == Ok then
        var stored := svc.(meta := k);
        Outcome(this.(svcs := svcs[k := stored]), Got(stored, Ok))
      else Outcome(this, Got(ZeroService, st))
    }

    function CreateIngress(ns: string, ing: Ingress): (r: Outcome<Got<Ingress>>)
      ensures Valid() ==> r.store.Valid()
    {
      var k := Key(ns, ing.meta.name);
      var st := CreateStatus(Call(Create, Ingresses, k), k in ings, ing.meta, IngressAcceptable(ing));
      if st == Ok then
        var stored := ing.(meta := k);
        Outcome(this.(ings := ings[k := stored]), Got(stored, Ok))
      else Outcome(this, Got(ZeroIngress, st))
    }

    function DeleteService(k: Key): (r: Outcome<Status>)
      ensures Valid() ==> r.store.Valid()
    {
      var st := ReadStatus(Call(Delete, Services, k), k in svcs);
      Outcome(if st == Ok then this.(svcs := svcs - {k}) else this, st)
    }

    function DeleteIngress(k: Key): (r: Outcome<Status>)
      ensures Valid() ==> r.store.Valid()
    {
      var st := ReadStatus(Call(Delete, Ingresses, k), k in ings);
      Outcome(if st == Ok then this.(ings := ings - {k}) else this, st)
    }
  }

  /** The API server's answers on a healthy store, for a key with a name and
      objects filed under it that pass validation: Get finds what is there
      or answers NotFound; Create adds the object or answers AlreadyExists;
      Delete removes the object or answers NotFound; every other part of the
      store stays as it was. */
  lemma StoreAnswers(s: Store, k: Key, svc: Service, ing: Ingress)
    requires k.name != "" && s.faults == {}
    ensures s.GetDeployment(k) ==
      if k in s.deps then Got(s.deps[k], Ok) else Got(ZeroDeployment, NotFound)
    ensures s.GetService(k) ==
      if k in s.svcs then Got(s.svcs[k], Ok) else Got(ZeroService, NotFound)
    ensures (svc.meta == k && ServiceAcceptable(svc)) ==>
      (s.CreateService(k.namespace, svc) ==
         if k in s.svcs then Outcome(s, Got(ZeroService, AlreadyExists))
         else Outcome(s.(svcs := s.svcs[k := svc]), Got(svc, Ok)))
    ensures (ing.meta == k && IngressAcceptable(ing)) ==>
      (s.CreateIngress(k.namespace, ing) ==
         if k in s.ings then Outcome(s, Got(ZeroIngress, AlreadyExists))
         else Outcome(s.(ings := s.ings[k := ing]), Got(ing, Ok)))
    ensures s.DeleteService(k) ==
      if k in s.svcs then Outcome(s.(svcs := s.svcs - {k}), Ok) else Outcome(s, NotFound)
    ensures s.DeleteIngress(k) ==
      if k in s.ings then Outcome(s.(ings := s.ings - {k}), Ok) else Outcome(s, NotFound)
  {
  }

  /** The refusals, each leaving the store unchanged: an empty name is
      refused by the client, a failing call answers Unavailable, and the
      server refuses an object whose fields do not pass validation, whether
      or not its key is taken. */
  lemma StoreRefusals(s: Store, k: Key, svc: Service, ing: Ingress)
    ensures k.name == "" ==>
      && s.GetDeployment(k) == Got(ZeroDeployment, Invalid)
      && s.GetService(k) == Got(ZeroService, Invalid)
      && s.DeleteService(k) == Outcome(s, Invalid)
      && s.DeleteIngress(k) == Outcome(s, Invalid)
    ensures k.name != "" && Call(Get, Deployments, k) in s.faults ==>
      s.GetDeployment(k) == Got(ZeroDeployment, Unavailable)
    ensures k.name != "" && Call(Get, Services, k) in s.faults ==>
      s.GetService(k) == Got(ZeroService, Unavailable)
    ensures k.name != "" && Call(Delete, Services, k) in s.faults ==>
      s.DeleteService(k) == Outcome(s, Unavailable)
    ensures k.name != "" && Call(Delete, Ingresses, k) in s.faults ==>
      s.DeleteIngress(k) == Outcome(s, Unavailable)
    ensures Call(Create, Services, Key(k.namespace, svc.meta.name)) in s.faults ==>
      s.CreateService(k.namespace, svc) == Outcome(s, Got(ZeroService, Unavailable))
    ensures Call(Create, Ingresses, Key(k.namespace, ing.meta.name)) in s.faults ==>
      s.CreateIngress(k.namespace, ing) == Outcome(s, Got(ZeroIngress, Unavailable))
    ensures svc.meta.name == "" && Call(Create, Services, Key(k.namespace, "")) !in s.faults ==>
      s.CreateService(k.namespace, svc) == Outcome(s, Got(ZeroService, Invalid))
    ensures ing.meta.name == "" && Call(Create, Ingresses, Key(k.namespace, "")) !in s.faults ==>
      s.CreateIngress(k.namespace, ing) == Outcome(s, Got(ZeroIngress, Invalid))
    ensures Call(Create, Services, Key(k.namespace, svc.meta.name)) !in s.faults && !ServiceAcceptable(svc) ==>
      s.CreateService(k.namespace, svc) == Outcome(s, Got(ZeroService, Invalid))
    ensures Call(Create, Ingresses, Key(k.namespace, ing.meta.name)) !in s.faults && !IngressAcceptable(ing) ==>
      s.CreateIngress(k.namespace, ing) == Outcome(s, Got(ZeroIngress, Invalid))
  {
  }

  /** The cluster as the controllers' client sees it. */
  class Cluster {
    var deps: map<Key, Deployment>
    var cache: map<Key, Deployment>
    var svcs: map<Key, Service>
    var ings: map<Key, Ingress>
    var faults: set<Call>

    function Snapshot(): Store
      reads this
    {
      Store(deps, cache, svcs, ings, faults)
    }

    constructor (s: Store)
      ensures Snapshot() == s
    {
      deps, cache, svcs, ings, faults := s.deps, s.cache, s.svcs, s.ings, s.faults;
    }

    /** `clientset.AppsV1().Deployments(ns).Get(ctx, name, ...)`. */
    method GetDeployment(k: Key) returns (dep: Deployment, err: Status)
      ensures Got(dep, err) == Snapshot().GetDeployment(k)
    {
      err := Snapshot().ReadStatus(Call(Get, Deployments, k), k in deps);
      dep := if err == Ok then deps[k] else ZeroDeployment;
    }

    /** `depLister.Deployments(ns).Get(name)`. */
    method ListDeployment(k: Key) returns (dep: Deployment, err: Status)
      ensures Got(dep, err) == Snapshot().ListDeployment(k)
    {
      if k in cache {
        dep, err := cache[k], Ok;
      } else {
        dep, err := ZeroDeployment, NotFound;
      }
    }

    /** `clientset.CoreV1().Services(ns).Get(ctx, name, ...)`. */
    method GetService(k: Key) returns (svc: Service, err: Status)
      ensures Got(svc, err) == Snapshot().GetService(k)
    {
      err := Snapshot().ReadStatus(Call(Get, Services, k), k in svcs);
      svc := if err == Ok then svcs[k] else ZeroService;
    }

    /** `clientset.CoreV1().Services(ns).Create(ctx, &svc, ...)`. */
    method CreateService(ns: string, svc: Service) returns (created: Service, err: Status)
      modifies this
      ensures Outcome(Snapshot(), Got(created, err)) == old(Snapshot()).CreateService(ns, svc)
    {
      var k := Key(ns, svc.meta.name);
      err := Snapshot().CreateStatus(Call(Create, Services, k), k in svcs, svc.meta, ServiceAcceptable(svc));
      if err == Ok {
        created := svc.(meta := k);
        svcs := svcs[k := created];
      } else {
        created := ZeroService;
      }
    }

    /** `clientset.NetworkingV1().Ingresses(ns).Create(ctx, &ingress, ...)`. */
    method CreateIngress(ns: string, ing: Ingress) returns (created: Ingress, err: Status)
      modifies this
      ensures Outcome(Snapshot(), Got(created, err)) == old(Snapshot()).CreateIngress(ns, ing)
    {
      var k := Key(ns, ing.meta.name);
      err := Snapshot().CreateStatus(Call(Create, Ingresses, k), k in ings, ing.meta, IngressAcceptable(ing));
      if err == Ok {
        created := ing.(meta := k);
        ings := ings[k := created];
      } else {
        created := ZeroIngress;
      }
    }

    /** `clientset.CoreV1().Services(ns).Delete(ctx, name, ...)`. */
    method DeleteService(k: Key) returns (err: Status)
      modifies this
      ensures Outcome(Snapshot(), err) == old(Snapshot()).DeleteService(k)
    {
      err := Snapshot().ReadStatus(Call(Delete, Services, k), k in svcs);
      if err == Ok {
        svcs := svcs - {k};
      }
    }

    /** `clientset.NetworkingV1().Ingresses(ns).Delete(ctx, name, ...)`. */
    method DeleteIngress(k: Key) returns (err: Status)
      modifies this
      ensures Outcome(Snapshot(), err) == old(Snapshot()).DeleteIngress(k)
    {
      err := Snapshot().ReadStatus(Call(Delete, Ingresses, k), k in ings);
      if err == Ok {
        ings := ings - {k};
      }
    }
  }
}
