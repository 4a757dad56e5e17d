/** How the three controllers act on one shared cluster: the guards undo an
    out-of-band delete with exactly what the Deployment controller made, they
    do not undo its teardown, and the Ingress guard can create an Ingress the
    Deployment controller decided against. */
module Interplay {
  import opened Strconv
  import opened Exposure
  import opened Api
  import Workload
  import ServiceGuard
  import IngressGuard

  /** A Service created for a Deployment and then deleted out of band is
      recreated by the Service guard exactly as it was. */
  lemma ServiceGuardRestoresService(s: Store, k: Key)
    requires s.Valid() && s.faults == {}
    requires k in s.deps && k in s.cache && s.cache[k] == s.deps[k] && k !in s.svcs
    requires PortLabelValid(s.deps[k].labels)
    ensures var added := Workload.ProcessItemsSpec(s, Item(false, Some(k)));
      var deleted := added.store.(svcs := added.store.svcs - {k});
      && added.result
      && ServiceGuard.ProcessItemsSpec(deleted, Item(false, Some(k))) == Outcome(added.store, true)
  {
    Workload.AddOnHealthyCluster(s, k, false);
    var added := Workload.ProcessItemsSpec(s, Item(false, Some(k)));
    var deleted := added.store.(svcs := added.store.svcs - {k});
    assert deleted == added.store.(svcs := s.svcs);
    ServiceGuard.RecreatesDerivedService(deleted, k);
  }

  /** An Ingress created for a Deployment and then deleted out of band is
      recreated by the Ingress guard exactly as it was. */
  lemma IngressGuardRestoresIngress(s: Store, k: Key)
    requires s.Valid() && s.faults == {}
    requires k in s.deps && k in s.cache && IngressRequested(s.cache[k].labels)
    requires PortLabelValid(s.cache[k].labels) && PortLabelValid(s.deps[k].labels)
    requires k !in s.svcs && k !in s.ings
    ensures var added := Workload.ProcessItemsSpec(s, Item(false, Some(k)));
      var deleted := added.store.(ings := added.store.ings - {k});
      && added.result && k in added.store.ings
      && IngressGuard.ProcessItemsSpec(deleted, Item(false, Some(k))) == Outcome(added.store, true)
  {
    Workload.AddOnHealthyCluster(s, k, false);
    var added := Workload.ProcessItemsSpec(s, Item(false, Some(k)));
    var deleted := added.store.(ings := added.store.ings - {k});
    assert deleted == added.store.(ings := s.ings);
    IngressGuard.RecreatesRegardlessOfIntent(deleted, k);
  }

  /** After a complete teardown neither guard brings anything back: the
      Service guard finds no Deployment and the Ingress guard no Service. */
  lemma TeardownIsFinal(s: Store, k: Key)
    requires s.Valid() && s.faults == {}
    requires k.name != "" && k !in s.deps && k in s.svcs && k in s.ings
    ensures var gone := Workload.ProcessItemsSpec(s, Item(false, Some(k)));
      && gone.result && k !in gone.store.svcs && k !in gone.store.ings
      && ServiceGuard.ProcessItemsSpec(gone.store, Item(false, Some(k))) == Outcome(gone.store, true)
      && IngressGuard.ProcessItemsSpec(gone.store, Item(false, Some(k))) == Outcome(gone.store, true)
  {
  }

  /** The Ingress guard does not respect the ingReq label: for a Deployment
      that did not ask for an Ingress, the Deployment controller creates only
      the Service, yet a delete event for that key makes the guard create the
      Ingress. */
  lemma IngressGuardOverridesIntent(s: Store, k: Key)
    requires s.Valid() && s.faults == {}
    requires k in s.deps && k in s.cache && s.cache[k] == s.deps[k]
    requires !IngressRequested(s.deps[k].labels) && PortLabelValid(s.deps[k].labels)
    requires k !in s.svcs && k !in s.ings
    ensures var added := Workload.ProcessItemsSpec(s, Item(false, Some(k)));
      && added.result && k in added.store.svcs && k !in added.store.ings
      && IngressGuard.ProcessItemsSpec(added.store, Item(false, Some(k))) ==
           Outcome(added.store.(ings := added.store.ings[k := IngressFor(k, s.deps[k].labels)]), true)
  {
    Workload.AddOnHealthyCluster(s, k, false);
    var added := Workload.ProcessItemsSpec(s, Item(false, Some(k)));
    IngressGuard.RecreatesRegardlessOfIntent(added.store, k);
  }

  /** The Deployment "web" in namespace "default" labelled {port: "8080",
      ingReq: "needed"}, on a cluster with nothing else. */
  const WebKey := Key("default", "web")
  const WebDeployment := Deployment(WebKey, map["port" := "8080", "ingReq" := "needed"], map["app" := "web"])
  const WebCluster := Store(map[WebKey := WebDeployment], map[WebKey := WebDeployment], map[], map[], {})

  /** The same cluster after Service "web" on port 8080 and Ingress "web"
      routing web.abhilash.com/api/v1/books to web:8080 were made. */
  const WebExposed := WebCluster.(
    svcs := map[WebKey := Service(WebKey, map["app" := "web"], [ServicePort("http", 8080)])],
    ings := map[WebKey := Ingress(WebKey, [Rule("web.abhilash.com",
              [HttpPath("/api/v1/books", Exact, Backend("web", 8080))])])])

  /** The server accepts the port label of "web", and the Service derived
      for it is the one above. */
  lemma WebService()
    ensures PortLabelValid(WebDeployment.labels)
    ensures ServiceFor(WebDeployment) == WebExposed.svcs[WebKey]
  {
    assert WebDeployment.labels[PortKey] == Decimal(8080);
    PortFromLabel(WebDeployment.labels, 8080);
  }

  /** The Ingress derived for "web" is the one above. */
  lemma WebIngress()
    ensures IngressFor(WebKey, WebDeployment.labels) == WebExposed.ings[WebKey]
  {
    BooksRoute(WebKey, WebDeployment.labels);
    assert Host("web") == "web.abhilash.com";
  }

  /** Adding "web" creates exactly that Service and that Ingress. */
  lemma WebAdded()
    ensures Workload.ProcessItemsSpec(WebCluster, Item(false, Some(WebKey))) == Outcome(WebExposed, true)
  {
    var s := WebCluster;
    assert s.Valid();
    assert IngressRequested(WebDeployment.labels);
    WebService();
    WebIngress();
    Workload.AddOnHealthyCluster(s, WebKey, false);
    assert s.(svcs := s.svcs[WebKey := ServiceFor(WebDeployment)],
              ings := s.ings[WebKey := IngressFor(WebKey, WebDeployment.labels)]) == WebExposed;
  }

  /** Deleting "web" removes both objects; a second teardown on the
      already-clean key reports failure and changes nothing. */
  lemma WebRemoved()
    ensures var removed := WebExposed.(deps := map[], cache := map[]);
      var clean := removed.(svcs := map[], ings := map[]);
      && Workload.ProcessItemsSpec(removed, Item(false, Some(WebKey))) == Outcome(clean, true)
      && Workload.ProcessItemsSpec(clean, Item(false, Some(WebKey))) == Outcome(clean, false)
  {
    var removed := WebExposed.(deps := map[], cache := map[]);
    assert removed.Valid();
    Workload.RepeatedTeardownFails(removed, WebKey, false);
  }

  /** Service "web" deleted out of band while "web" persists comes back with
      the same selector and port. */
  lemma WebServiceRestored()
    ensures ServiceGuard.ProcessItemsSpec(WebExposed.(svcs := map[]), Item(false, Some(WebKey))) ==
      Outcome(WebExposed, true)
  {
    WebAdded();
    ServiceGuardRestoresService(WebCluster, WebKey);
    assert WebExposed.(svcs := map[]) == WebExposed.(svcs := WebExposed.svcs - {WebKey});
  }
}
