# ekspose reconciliation core in Dafny

ekspose is a small Kubernetes controller process. It runs three controllers. The Deployment controller gives each Deployment a Service. When the Deployment's `ingReq` label reads `needed`, it also gives it an Ingress, and it tears both down once the Deployment is gone. The Service guard recreates a deleted Service while its Deployment still exists. The Ingress guard recreates a deleted Ingress while its Service still exists.

This project models the reconciliation logic of those three controllers over an in-memory cluster, and the label-to-object derivation they share. It then proves properties of that model.

## Files and modules

- `strconv.dfy`, module `Strconv`: the Go conversions applied to the port label.
  - `strconv.Atoi` with its error ignored returns 0 on a syntax error and the nearest int64 bound on a range error.
  - `ParseUint` follows Go's digit loop. It stops at the first non-digit, or at the first digit that takes the value past 2^64-1, whichever comes first. So `"99999999999999999999x"` parses as the int64 maximum, not as 0.
  - The `int32(...)` cast keeps the low 32 bits.
  - `Decimal` prints a number, and the lemma `AtoiOfDecimal` shows that parsing undoes it.
- `exposure.dfy`, module `Exposure`: the object types (Deployment, Service, Ingress) and the derivation rules.
  - The port string is the `port` label, or `"80"` by default.
  - An Ingress is wanted when the `ingReq` label equals `"needed"`.
  - The path is `"/api/v1/books"` for port `"8080"` and `"/"` otherwise.
  - The host is `name + ".abhilash.com"`.
  - Each Go label loop is modelled by the method `ScanLabel`. It visits keys in arbitrary order, as Go's map range does, and is proved equal to a map lookup with a default.
- `api.dfy`, module `Api`: the cluster store and its client.
  - `Store` is a value holding the authoritative `deps`, `svcs` and `ings` maps keyed by (namespace, name) and the lister's `cache` of Deployments, which may be stale.
  - `Store` also holds a set `faults` of calls that fail for outside reasons.
  - `Cluster` is a class with the same maps as fields. Its Get/Create/Delete methods update them in place and are proved to agree with `Store`.
  - Get of an absent key gives NotFound, Create of an existing key gives AlreadyExists, and Delete of an absent key gives NotFound.
  - A Get or Delete with an empty name gives Invalid, as the Go client refuses it. A Create of an object without a name gives Invalid, as the API server refuses it.
  - The API server also refuses a Service without a port, or with a port outside 1..65535, and an Ingress whose backend port is outside 1..65535. These refusals come before the check for an existing key, so they give Invalid even when the object exists.
  - On any Get error the client returns an empty object, and the guards go on with it, as the Go code does.
- `workload.dfy`, module `Workload`: `controller.go`.
  - Class `Controller` has the methods `ProcessItems` and `SyncDeployment`. The module-level method `CreateIngress` is the shared `createIngress`.
  - Each method is proved equal to a function of the cluster's state before the call: `ProcessItemsSpec`, `SyncDeploymentSpec` and `CreateIngressSpec`.
  - The lemmas state what those functions promise.
- `service_guard.dfy`, module `ServiceGuard`: `controller_svc.go`.
- `ingress_guard.dfy`, module `IngressGuard`: `controller_ing.go`.
- `interplay.dfy`, module `Interplay`: the three controllers acting on one cluster.
  - A guard undoes an out-of-band delete with exactly the object the Deployment controller made.
  - A complete teardown is not undone by either guard.
  - The Ingress guard creates an Ingress that the `ingReq` label did not ask for.
  - The `web`/`default` example is worked through end to end.

One call of `processItems` is one atomic step on an item already taken off the queue. The item is `Dequeued`: either the shutdown signal, or an object whose key function may have failed and whose key may not have split.

## Where the code differs from what one might expect

The model follows the code in each case:

- **Strict teardown.** Teardown does not ignore NotFound. If the Service is already gone, the step returns false and an existing Ingress stays. A repeated teardown therefore fails instead of being a no-op (`Workload.TeardownIsStrict`, `Workload.RepeatedTeardownFails`).
- **Early exit on an existing Service.** An existing Service ends `syncDeployment` with success before the Ingress is considered. A failed Ingress create is therefore never repaired by later add events (`Workload.ExistingServiceExitsEarly`, `Workload.IngressGapPersists`).
- **The Ingress guard re-derives from labels.** It does not use a fixed path `/` and port 80. It calls the shared `createIngress`, which re-reads the Deployment and derives path and port from its current labels. It never consults `ingReq` (`IngressGuard.RecreatesRegardlessOfIntent`, `Interplay.IngressGuardOverridesIntent`).
- **No AlreadyExists tolerance in the Service guard.** The Service guard treats AlreadyExists as failure (`ServiceGuard.CreateErrorFails`).
- **Different reads for Service and Ingress.** `syncDeployment` builds the Service from the lister's cached Deployment. `createIngress` builds the Ingress from an authoritative read. A cache that has lost the Deployment makes the add path fail although the server still has it (`Workload.StaleCacheFails`). A cache holding an older copy does not fail: the Service is then built from the older labels (`Workload.AddOnHealthyCluster` uses the cached labels for the Service).
- **Port labels are never checked.** The parse error is ignored. A malformed label gives port 0. An unsigned or '+'-signed label whose leading digits overflow 64 bits gives port -1, and with a '-' sign it gives port 0. The server refuses all of these, so every add step for such a Deployment fails, even when its Service already exists (`Workload.InvalidPortFailsAdd`, `IngressGuard.InvalidPortFails`).
- **Key errors only logged in one place.** In `controller.go` a key-function error is only logged and processing goes on (`Workload.KeyFuncErrorIgnored`). The guards return false.

## Model

| member | source | states |
|---|---|---|
| `Strconv.Atoi` | controller.go:133 | the ignored-error parse stays within the int64 bounds, and an empty string or a sign alone gives 0 |
| `Strconv.ParseUint` | controller.go:133 | the digit loop's value, when it finishes with one, fits in 64 bits |
| `Strconv.ParseUintOfDigits` | controller.go:133 | on digits alone the loop gives their decimal value, or a range error once that value passes 2^64-1 |
| `Strconv.ParseUintStops` | controller.go:133 | after a syntax or range error nothing further is read: appending text does not change the outcome |
| `Strconv.ParseUintValueIsDigits` | controller.go:133 | the loop ends with a value only on a string of digits |
| `Strconv.AtoiOfMalformed` | controller.go:133 | a string that is not an optional sign followed by digits gives 0, unless its leading digits overflow 64 bits first |
| `Strconv.ToInt32` | controller.go:155 | the int32 cast gives a value in the int32 range that is congruent to its input modulo 2^32, and any value already in range is unchanged |
| `Strconv.AtoiOfDecimal` | controller.go:133 | parsing the decimal spelling of any n up to the int64 maximum gives n back |
| `Strconv.AtoiOfNegated` | controller.go:133 | a leading minus sign negates the parsed value, down to the int64 minimum |
| `Strconv.AtoiSaturates` | controller.go:133 | a number beyond the int64 range parses as the int64 maximum (the range error is ignored) |
| `Strconv.AtoiOverflowsBeforeJunkNegated` | controller.go:133 | '-' followed by digits past 2^64-1 and anything parses as the int64 minimum |
| `Strconv.AtoiOverflowsBeforeJunk` | controller.go:133 | digits past 2^64-1 followed by anything parse as the int64 maximum, because the range error comes before the rest is read |
| `Exposure.ScanLabel` | controller.go:128-132 | the label loop, over keys in any order, yields the label's value when the key is present and the default otherwise |
| `Exposure.PortFromLabel` | controller.go:123-133 | the port is the number the `port` label spells, or 80 when there is no label |
| `Exposure.MalformedPortIsZero` | controller.go:133 | a `port` label that is not a number, and whose leading digits do not overflow 64 bits, gives port 0, which the server refuses |
| `Exposure.OverflowingPortIsMinusOne` | controller.go:133-155 | an unsigned `port` label whose leading digits overflow 64 bits gives port -1, whatever follows, which the server refuses |
| `Exposure.NegativeOverflowingPortIsZero` | controller.go:133-155 | the same label with a leading '-' gives port 0, whatever follows, which the server refuses |
| `Exposure.PortWrapsAt32Bits` | controller.go:155 | a `port` label 2^32 above a port n gives n, because of the int32 cast |
| `Exposure.ServiceForShape` | controller.go:145-159 | for every Deployment, the Service has its name and namespace, selector equal to the pod-template labels, and exactly one port, named "http", numbered by the parsed label |
| `Exposure.ServiceForPort` | controller.go:152-157 | when the port label spells a number below 2^31, that number is the single port (80 with no label) |
| `Exposure.DerivedObjectsAcceptable` | controller.go:155 | the derived Service, and the derived Ingress, pass the server's port validation exactly when the port label gives a port in 1..65535 |
| `Exposure.IngressRequestedRule` | controller.go:172-179 | an Ingress is wanted exactly when `ingReq` is present and equals "needed"; a missing label counts as not needed |
| `Exposure.IngressPathRule` | controller.go:206-208 | the single path is "/api/v1/books" exactly when the `port` label is "8080", else "/" |
| `Exposure.IngressForShape` | controller.go:209-241 | for every set of labels, the Ingress is named after the Service, with one rule for host name+".abhilash.com" and one Exact path whose backend is the Service name and the parsed port label |
| `Exposure.IngressForPort` | controller.go:229-231 | when the port label spells a number below 2^31, that number is the backend port (80 with no label) |
| `Exposure.BooksRoute` | controller.go:206-230 | port label "8080" routes "/api/v1/books" to backend port 8080 |
| `Api.StoreAnswers` | controller.go:87-96 | on a healthy store, for a named key and acceptable objects: Get of Deployments and Services finds the object or answers NotFound; Create of Services and Ingresses adds the object or answers AlreadyExists; Delete of either removes it or answers NotFound; in each case the whole resulting store is given |
| `Api.StoreRefusals` | controller.go:87-96 | each refusal leaves the store unchanged: an empty name gives Invalid for the Deployment and Service Gets, the Service and Ingress Deletes, and a Create of a Service or Ingress without a name; a failing call among these Gets, Deletes and Creates gives Unavailable; an object failing validation gives Invalid on create |
| `Api.Store.CreateService` | controller.go:161 | creating a Service keeps every object filed under its own non-empty key |
| `Api.Store.CreateIngress` | controller.go:242 | creating an Ingress keeps every object filed under its own non-empty key |
| `Api.Store.DeleteService` | controller.go:90 | deleting a Service keeps the store invariant |
| `Api.Store.DeleteIngress` | controller.go:96 | deleting an Ingress keeps the store invariant |
| `Api.Cluster.GetDeployment` | controller.go:87 | the in-place client's Deployment read answers as the store does |
| `Api.Cluster.ListDeployment` | controller.go:117 | the lister read answers from the cache and can only miss |
| `Api.Cluster.GetService` | controller_ing.go:78 | the in-place client's Service read answers as the store does |
| `Api.Cluster.CreateService` | controller.go:161 | the in-place Service create changes the fields exactly as the store's create does |
| `Api.Cluster.CreateIngress` | controller.go:242 | the in-place Ingress create changes the fields exactly as the store's create does |
| `Api.Cluster.DeleteService` | controller.go:90 | the in-place Service delete changes the fields exactly as the store's delete does |
| `Api.Cluster.DeleteIngress` | controller.go:96 | the in-place Ingress delete changes the fields exactly as the store's delete does |
| `Workload.CreateIngress` | controller.go:190-253 | `createIngress` on the cluster yields the error and new state of `CreateIngressSpec` on the old state |
| `Workload.Controller.ProcessItems` | controller.go:69-111 | one step on the cluster yields the bool and new state of `ProcessItemsSpec` on the old state |
| `Workload.Controller.SyncDeployment` | controller.go:113-188 | `syncDeployment` on the cluster yields the error and new state of `SyncDeploymentSpec` on the old state |
| `Workload.CreateIngressEffect` | controller.go:190-253 | `createIngress` only adds, under the Service's key, the Ingress derived from the authoritative Deployment; a failed Deployment read is returned unchanged; any error leaves the store as it was; a failing Ingress create is returned as Unavailable and a refused port label as Invalid; on a healthy cluster with the Deployment present and a valid port label it succeeds, AlreadyExists counting as success |
| `Workload.SyncDeploymentFrame` | controller.go:113-188 | `syncDeployment` never changes Deployments, the cache or the failures, and keeps the store invariant |
| `Workload.SyncDeploymentEffect` | controller.go:145-187 | `syncDeployment` adds at most the Service derived from the cached Deployment, and at most the Ingress, which needs a new Service and "needed"; success means the Service exists and the cached port label is one the server accepts |
| `Workload.TeardownIsStrict` | controller.go:88-103 | with the Deployment NotFound, any Service-delete error (NotFound included) returns false and keeps the Ingress; otherwise the Service goes, then the Ingress, and the result is true iff both deletes succeeded |
| `Workload.IngressDeletedOnlyAfterService` | controller.go:90-101 | an Ingress is removed only in a step that also removed its Service and returned true |
| `Workload.AddOnHealthyCluster` | controller.go:113-188 | on a healthy cluster, a Deployment without a Service and with acceptable port labels gets exactly its derived Service, plus its derived Ingress when "needed" and absent; the result is true |
| `Workload.ExistingServiceExitsEarly` | controller.go:161-165 | an existing Service gives true with the store unchanged when the port label is acceptable, so no Ingress is created even when ingReq is "needed" |
| `Workload.StaleCacheFails` | controller.go:117-121 | a Deployment present on the server but missing from the cache makes the add path return false with no change |
| `Workload.InvalidPortFailsAdd` | controller.go:133-168 | a cached port label the server refuses makes every add step return false with no change, whether or not the Service exists |
| `Workload.IngressOnlyWithNewService` | controller.go:172-187 | on the add path the Ingresses change only by adding the derived Ingress, and only when the Service was new and the cached ingReq is "needed" |
| `Workload.AddPathSuccess` | controller.go:104-110 | a true result on the add path means the Service exists; existing Services are untouched; a new Service is the derived one, and a requested Ingress exists |
| `Workload.OnlyExposureObjectsChange` | controller.go:87-110 | a step never modifies Deployments, the cache or the failure set, and keeps the store invariant |
| `Workload.KeyFuncErrorIgnored` | controller.go:75-83 | a key-function error does not change the step's result or effect |
| `Workload.AddIsIdempotent` | controller.go:161-165 | on a healthy cluster with acceptable port labels, one add step succeeds and a second on the same key succeeds with no change |
| `Workload.RepeatedTeardownFails` | controller.go:90-94 | a teardown that removed the Service and Ingress is followed by a teardown that returns false |
| `Workload.IngressGapPersists` | controller.go:179-187 | an Ingress create failure after a new Service returns false, and the next add step returns true without creating the Ingress |
| `ServiceGuard.Controller.ProcessItems` | controller_svc.go:62-117 | one step on the cluster yields the bool and new state of the guard's `ProcessItemsSpec` on the old state |
| `ServiceGuard.DeploymentGoneIsNoop` | controller_svc.go:79-83 | a Deployment NotFound gives true and no change |
| `ServiceGuard.BadKeyFails` | controller_svc.go:68-77 | a key-derivation or key-split failure gives false and no change |
| `ServiceGuard.RecreatesDerivedService` | controller_svc.go:86-116 | with the Deployment present, its port label acceptable and the Service missing, the Service created is the one `syncDeployment` derives from the Deployment, and the result is true |
| `ServiceGuard.CreateErrorFails` | controller_svc.go:109-114 | any create error gives false and no change: an existing Service (AlreadyExists), a failing create call, a refused port label, or a failed Deployment read |
| `ServiceGuard.FailureChangesNothing` | controller_svc.go:62-117 | a step of the Service guard that returns false leaves the store as it was |
| `ServiceGuard.OnlyAddsServices` | controller_svc.go:109 | the guard never changes Deployments, the cache or Ingresses, never removes or alters a Service, and can add one only under the item's own key |
| `IngressGuard.Controller.ProcessItems` | controller_ing.go:61-92 | one step on the cluster yields the bool and new state of the guard's `ProcessItemsSpec` on the old state |
| `IngressGuard.ServiceGoneIsNoop` | controller_ing.go:78-82 | a Service NotFound gives true and no change |
| `IngressGuard.BadKeyFails` | controller_ing.go:67-76 | a key-derivation or key-split failure gives false and no change |
| `IngressGuard.ServiceReadFailureFails` | controller_ing.go:78-89 | a Service read error other than NotFound gives false and no change |
| `IngressGuard.RecreatesRegardlessOfIntent` | controller_ing.go:84-91 | with Service and Deployment present and the port label acceptable, the missing Ingress is created whatever ingReq says, derived from the Deployment's current labels; the result is true |
| `IngressGuard.DeploymentGoneFails` | controller_ing.go:85-89 | with the Deployment absent nothing is created and the result is false |
| `IngressGuard.ExistingIngressSucceeds` | controller_ing.go:85-91 | an Ingress that already exists gives true and no change when the port label is acceptable |
| `IngressGuard.InvalidPortFails` | controller_ing.go:85-89 | a port label on the Deployment that the server refuses gives false and no change, even when the Ingress exists |
| `IngressGuard.FailureChangesNothing` | controller_ing.go:61-92 | a step of the Ingress guard that returns false leaves the store as it was |
| `IngressGuard.OnlyAddsIngresses` | controller_ing.go:85 | the guard never changes Deployments, the cache or Services, and never removes or alters an Ingress |
| `Interplay.ServiceGuardRestoresService` | controller_svc.go:79-116 | a Service the Deployment controller made, then deleted out of band, is recreated identically by the Service guard when the port label is acceptable |
| `Interplay.IngressGuardRestoresIngress` | controller_ing.go:78-91 | an Ingress the Deployment controller made, then deleted out of band, is recreated identically by the Ingress guard when the port labels are acceptable |
| `Interplay.TeardownIsFinal` | controller.go:88-103 | after a complete teardown, both guards answer true and change nothing |
| `Interplay.IngressGuardOverridesIntent` | controller_ing.go:84-85 | for a Deployment not asking for an Ingress, the Deployment controller makes none, but an Ingress-guard step makes one |
| `Interplay.WebService` | controller.go:145-159 | the Service derived for "web" is web:8080 selecting app=web, and its port label is acceptable |
| `Interplay.WebIngress` | controller.go:206-241 | the Ingress derived for "web" routes web.abhilash.com/api/v1/books to web:8080 |
| `Interplay.WebAdded` | controller.go:145-241 | "web" with port "8080" and ingReq "needed" gets Service web:8080 and an Ingress routing web.abhilash.com/api/v1/books to web:8080 |
| `Interplay.WebRemoved` | controller.go:88-103 | deleting "web" removes both objects with result true; repeating the teardown returns false |
| `Interplay.WebServiceRestored` | controller_svc.go:86-116 | Service "web" deleted out of band comes back with the same selector and port |

## Left out

- Process startup in `main.go` is not modelled: kubeconfig flag, in-cluster fallback, clientset and informer factory.
- Informers, cache synchronisation, `wait.Until` and the rate-limiting work queue (Add, Get, Forget, dedup) are not modelled. They are library code and concurrency. The queue item is a parameter of `ProcessItems`.
- The event handlers `handleAdd` and `handleDel` are not modelled: they only enqueue.
- `worker` (`for c.processItems() {}`) loops until a step returns false. Only single steps are modelled. Concurrent workers appear only as arbitrary sequences of atomic steps, which the `Interplay` lemmas compose by hand.
- `cache.MetaNamespaceKeyFunc` and `cache.SplitMetaNamespaceKey` are library code. Their outcomes are inputs: a key-function failure flag and an optional (namespace, name).
- The watch stream that fills the lister cache is not modelled. The cache is a given map that may differ from the server's Deployments.
- Transient API errors, such as network or throttling, appear only as injected failures (the `faults` set). Timeouts, retries and contexts are not modelled.
- All `fmt` logging is left out, as are the commented-out blocks at controller.go:134-143 and 199-201.
- Object fields the code never sets are not modelled, and neither are server-side defaulting or generated fields. That covers Service type, target ports, resource versions, Ingress class and the rest.
- `Strconv.Atoi` models a 64-bit platform only. It is base 10 without underscores, as `strconv.Atoi` is. The error text is not modelled.
- The API server's validation is modelled only for what the controllers set: object name, namespace and port numbers. Name syntax, host syntax and the other field checks are not modelled.
- Injected failures (`faults`) are fixed for a whole step. A transient error cannot hit one call and spare a later call of the same kind on the same key, such as the Deployment read at controller.go:87 and the re-read at controller.go:193. No lemma depends on it.
