/** The objects the controllers read and write, and the rules that turn a
    Deployment's labels into the Service and the Ingress made for it
    (controller.go:123-159 and 191-241; controller_svc.go:86-108 repeats the
    Service half). */
module Exposure {
  import opened Strconv

  /** ObjectMeta's identity: an object is addressed by namespace and name. */
  datatype Key = Key(namespace: string, name: string)

  type Labels = map<string, string>

  /** A Deployment as the controllers see it: its metadata labels and the
      labels of its pod template. */
  datatype Deployment = Deployment(meta: Key, labels: Labels, templateLabels: Labels)

  datatype ServicePort = ServicePort(name: string, port: int)

  datatype Service = Service(meta: Key, selector: Labels, ports: seq<ServicePort>)

  datatype PathType = Exact | Prefix | ImplementationSpecific

  datatype Backend = Backend(serviceName: string, port: int)

  datatype HttpPath = HttpPath(path: string, pathType: PathType, backend: Backend)

  datatype Rule = Rule(host: string, paths: seq<HttpPath>)

  datatype Ingress = Ingress(meta: Key, rules: seq<Rule>)

  /** The empty objects a Go client hands back together with an error. */
  const ZeroKey := Key("", "")
  const ZeroDeployment := Deployment(ZeroKey, map[], map[])
  const ZeroService := Service(ZeroKey, map[], [])
  const ZeroIngress := Ingress(ZeroKey, [])

  const PortKey := "port"
  const DefaultPort := "80"
  const IngReqKey := "ingReq"
  const NotNeeded := "notNeeded"
  const Needed := "needed"
  const BooksPort := "8080"
  const BooksPath := "/api/v1/books"
  const RootPath := "/"
  const DomainSuffix := ".abhilash.com"
  const HttpPortName := "http"
  const MaxPort := 65535

  /** The value under `key`, or `absent` when the label is missing. */
  function LabelOr(labels: Labels, key: string, absent: string): string {
    if key in labels then labels[key] else absent
  }

  /** The label scans `for key, val := range labels { if key == K { v = val } }`
      of controller.go:128-132, 173-177, 198-205 and controller_svc.go:87-91.
      Keys are visited in an arbitrary order, as Go ranges over a map. */
  method ScanLabel(labels: Labels, key: string, absent: string) returns (v: string)
    ensures v == LabelOr(labels, key, absent)
  {
    v := absent;
    var rest := labels.Keys;
    while rest != {}
      invariant rest <= labels.Keys
      invariant v == LabelOr(labels - rest, key, absent)
      decreases rest
    {
      var k :| k in rest;
      if k == key {
        v := labels[k];
      }
      rest := rest - {k};
    }
    assert labels - rest == labels;
  }

  function PortString(labels: Labels): string {
    LabelOr(labels, PortKey, DefaultPort)
  }

  /** `int32(portInt)` where `portInt, _ := strconv.Atoi(port)`. */
  function PortNumber(port: string): int {
    ToInt32(Atoi(port))
  }

  function IngressRequested(labels: Labels): bool {
    LabelOr(labels, IngReqKey, NotNeeded) == Needed
  }

  function IngressPath(port: string): string {
    if port == BooksPort then BooksPath else RootPath
  }

  function Host(name: string): string {
    name + DomainSuffix
  }

  /** The Service built for a Deployment (controller.go:145-159). */
  function ServiceFor(dep: Deployment): Service {
    Service(dep.meta, dep.templateLabels, [ServicePort(HttpPortName, PortNumber(PortString(dep.labels)))])
  }

  /** The Ingress `createIngress` builds for the Service `svc`, reading the
      port from the Deployment labels `labels` (controller.go:206-241). */
  function IngressFor(svc: Key, labels: Labels): Ingress {
    var port := PortString(labels);
    Ingress(svc, [Rule(Host(svc.name), [HttpPath(IngressPath(port), Exact, Backend(svc.name, PortNumber(port)))])])
  }

  /** A port number the API server accepts for a Service port or an Ingress
      backend: 1 to 65535. */
  predicate ValidPort(p: int) {
    1 <= p <= MaxPort
  }

  /** The port label gives a port number the API server accepts. */
  predicate PortLabelValid(labels: Labels) {
    ValidPort(PortNumber(PortString(labels)))
  }

  /** The API server's field validation of a Service, as far as the fields
      the controllers set go: at least one port, every port in range. */
  predicate ServiceAcceptable(svc: Service) {
    |svc.ports| > 0 && forall i :: 0 <= i < |svc.ports| ==> ValidPort(svc.ports[i].port)
  }

  /** The API server's field validation of an Ingress, as far as the fields
      the controllers set go: every backend port in range. */
  predicate IngressAcceptable(ing: Ingress) {
    forall i, j :: 0 <= i < |ing.rules| && 0 <= j < |ing.rules[i].paths| ==>
      ValidPort(ing.rules[i].paths[j].backend.port)
  }

  /** The derived Service and Ingress pass the server's validation exactly
      when the port label gives a port in 1..65535. */
  lemma DerivedObjectsAcceptable(dep: Deployment, svc: Key, labels: Labels)
    ensures ServiceAcceptable(ServiceFor(dep)) <==> PortLabelValid(dep.labels)
    ensures IngressAcceptable(IngressFor(svc, labels)) <==> PortLabelValid(labels)
  {
    var ing := IngressFor(svc, labels);
    assert ing.rules[0].paths[0].backend.port == PortNumber(PortString(labels));
    assert ServiceFor(dep).ports[0].port == PortNumber(PortString(dep.labels));
  }

  /** The port label, when it spells a number that fits in 32 bits, is the
      Service's port; a missing label gives 80. */
  lemma PortFromLabel(labels: Labels, n: nat)
    requires n < TwoTo31
    requires PortKey in labels ==> labels[PortKey] == Decimal(n)
    requires PortKey !in labels ==> n == 80
    ensures PortNumber(PortString(labels)) == n
  {
    if PortKey !in labels {
      assert Decimal(80) == DefaultPort;
    }
    AtoiOfDecimal(n);
  }

  /** A port label that is not a number gives port 0, which the API server
      refuses, unless its leading digits already overflow 64 bits. */
  lemma MalformedPortIsZero(labels: Labels)
    requires PortKey in labels && !IsNumeral(labels[PortKey])
    requires ParseUint(Unsigned(labels[PortKey])) != RangeError
    ensures PortNumber(PortString(labels)) == 0 && !PortLabelValid(labels)
  {
    AtoiOfMalformed(labels[PortKey]);
  }

  /** A port label whose leading digits overflow 64 bits gives port -1,
      whatever follows them: the parse returns the int64 maximum, whose low
      32 bits are all ones. */
  lemma OverflowingPortIsMinusOne(labels: Labels, n: nat, rest: string)
    requires n > MaxUint64
    requires PortKey in labels && labels[PortKey] == Decimal(n) + rest
    ensures PortNumber(PortString(labels)) == -1 && !PortLabelValid(labels)
  {
    AtoiOverflowsBeforeJunk(n, rest);
  }

  /** With a minus sign the same label gives port 0: the parse returns the
      int64 minimum, whose low 32 bits are all zero. */
  lemma NegativeOverflowingPortIsZero(labels: Labels, n: nat, rest: string)
    requires n > MaxUint64
    requires PortKey in labels && labels[PortKey] == "-" + Decimal(n) + rest
    ensures PortNumber(PortString(labels)) == 0 && !PortLabelValid(labels)
  {
    AtoiOverflowsBeforeJunkNegated(n, rest);
  }

  /** The int32 cast wraps: a label 2^32 above a port gives that port. */
  lemma PortWrapsAt32Bits(labels: Labels, n: nat)
    requires n < TwoTo31
    requires PortKey in labels && labels[PortKey] == Decimal(n + TwoTo32)
    ensures PortNumber(PortString(labels)) == n
  {
    AtoiOfDecimal(n + TwoTo32);
  }

  /** The Service has the Deployment's name and namespace, selects the pod
      template's labels and exposes exactly one port, named "http", whose
      number is the parsed port label. */
  lemma ServiceForShape(dep: Deployment)
    ensures ServiceFor(dep).meta == dep.meta
    ensures ServiceFor(dep).selector == dep.templateLabels
    ensures |ServiceFor(dep).ports| == 1 && ServiceFor(dep).ports[0].name == HttpPortName
    ensures ServiceFor(dep).ports[0].port == PortNumber(PortString(dep.labels))
  {
  }

  /** When the port label spells a number that fits in 32 bits, that number
      is the Service's port (80 when the label is missing). */
  lemma ServiceForPort(dep: Deployment, n: nat)
    requires n < TwoTo31
    requires PortKey in dep.labels ==> dep.labels[PortKey] == Decimal(n)
    requires PortKey !in dep.labels ==> n == 80
    ensures ServiceFor(dep).ports == [ServicePort(HttpPortName, n)]
  {
    PortFromLabel(dep.labels, n);
  }

  /** Ingress is wanted exactly when the ingReq label reads "needed"; a
      missing label counts as "notNeeded". */
  lemma IngressRequestedRule(labels: Labels)
    ensures IngressRequested(labels) <==> IngReqKey in labels && labels[IngReqKey] == Needed
  {
  }

  /** The path is "/api/v1/books" exactly when the port label is "8080",
      and "/" otherwise (the default port "80" included). */
  lemma IngressPathRule(svc: Key, labels: Labels)
    ensures |IngressFor(svc, labels).rules| == 1 && |IngressFor(svc, labels).rules[0].paths| == 1
    ensures var p := IngressFor(svc, labels).rules[0].paths[0].path;
            (p == BooksPath <==> PortKey in labels && labels[PortKey] == BooksPort)
            && (p != BooksPath ==> p == RootPath)
  {
  }

  /** For every set of labels the Ingress is named after its Service and has
      one rule for host `name.abhilash.com` with one Exact path whose backend
      is the Service name and the parsed port label. */
  lemma IngressForShape(svc: Key, labels: Labels)
    ensures IngressFor(svc, labels).meta == svc
    ensures IngressFor(svc, labels).rules == [Rule(svc.name + ".abhilash.com",
              [HttpPath(IngressPath(PortString(labels)), Exact, Backend(svc.name, PortNumber(PortString(labels))))])]
  {
  }

  /** When the port label spells a number that fits in 32 bits, that number
      is the backend port (80 when the label is missing). */
  lemma IngressForPort(svc: Key, labels: Labels, n: nat)
    requires n < TwoTo31
    requires PortKey in labels ==> labels[PortKey] == Decimal(n)
    requires PortKey !in labels ==> n == 80
    ensures IngressFor(svc, labels).rules[0].paths[0].backend.port == n
  {
    PortFromLabel(labels, n);
  }

  /** The labels {port: "8080"} give path "/api/v1/books" and backend port 8080. */
  lemma BooksRoute(svc: Key, labels: Labels)
    requires PortKey in labels && labels[PortKey] == BooksPort
    ensures IngressFor(svc, labels).rules ==
      [Rule(Host(svc.name), [HttpPath(BooksPath, Exact, Backend(svc.name, 8080))])]
  {
    assert Decimal(8080) == BooksPort;
    PortFromLabel(labels, 8080);
  }
}
