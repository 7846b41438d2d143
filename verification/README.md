# dexpose controller — a Dafny model

dexpose is a Kubernetes controller that watches Deployments and exposes each
new one: it creates a Service selecting the Deployment's pods (one port,
`http`/80) and then an Ingress that routes `/<service name>` to that Service
through the NGINX rewrite annotation. This project models its
reconcile-and-expose path, `controller/controller.go`, as pure functions over
immutable values:

- `objects.dfy` (`Objects`): the Deployment, Service and Ingress fields the
  controller reads or sets, and the `(namespace, name)` key of each object.
- `builders.dfy` (`Builders`): the two object literals, `createService` and
  `createIngress`, as pure builders. Independent descriptions sit beside them:
  the Service shape, the Ingress backends, the parse of the `/<name>` path,
  and the "Ingress routes to Service" relation. Lemmas tie each builder to
  them.
- `cluster.dfy` (`Cluster`): an abstract cluster holding maps keyed by
  `(namespace, name)`. It offers the three API calls the controller makes:
  Deployment get, Service create and Ingress create. Whether a call fails is
  a parameter (`Api`), never a rule of the model. `RejectDuplicates` is one
  such server, in which a create on a taken key fails with AlreadyExists.
- `controller.dfy` (`Controller`): the add and delete handlers, `expose` and
  `syncDeployment`, the `processItem` decision and the `worker` loop. Each one
  records the calls it makes on the queue and on the API server as a list of
  effects, in order.
- `wrappers.dfy` (`Wrappers`): `Option` and `Result`.

The work queue's answers are inputs: a `Dequeued` value is what one
`queue.Get()` returned. The controller's own queue calls are `Enqueue` and
`Forget` effects.

The handlers log a key error and still enqueue the object, because they do
not return after logging (controller/controller.go:43-59). `processItem` also
only logs a key error. It then fetches the Deployment under an empty namespace
and name (controller/controller.go:83-93).

## Model

| member | source | states |
|---|---|---|
| Builders.BuildService | controller/controller.go:129-144 | the Service has the Deployment's name and namespace, its label map as selector unchanged, and exactly one port, named `http`, number 80 |
| Builders.ServiceImage | controller/controller.go:130-144 | a Service is one the builder produces exactly when its port list is the single `http`/80 port |
| Builders.BuildServiceInjective | controller/controller.go:129-144 | two Deployments get the same Service exactly when their name, namespace and labels all agree |
| Builders.ServicePath | controller/controller.go:178 | the Ingress path is `/` followed by the Service name |
| Builders.ServicePathRoundTrip | controller/controller.go:178 | parsing the built path gives back the Service name, and any path that parses to a name is that name's built path |
| Builders.BuildIngress | controller/controller.go:153-187 | the Ingress has the Service's name and namespace, the single annotation rewrite-target → `/`, one rule with one path `/<svc name>` of type Prefix whose backend is the Service on port 80 |
| Builders.BuildIngressIdentity | controller/controller.go:155-179 | two Services get the same Ingress exactly when they share name and namespace; the selector and ports play no part |
| Builders.BuildIngressBackends | controller/controller.go:164-181 | the set of backends of the built Ingress is exactly {the Service's name on port 80} |
| Builders.ExposurePairConsistent | controller/controller.go:137-177 | the Ingress built from a built Service routes only to that Service, on a port the Service exposes |
| Cluster.GetDeployment | controller/controller.go:93-101 | a fetch returns the stored Deployment under the key, the server's injected error, or NotFound when the key holds nothing |
| Cluster.CreateService | controller/controller.go:145-150 | a Service create fails exactly when the server says so, returning that error with the store unchanged; otherwise it stores the Service under its key, returns it, and changes nothing else |
| Cluster.CreateIngress | controller/controller.go:188-193 | an Ingress create fails exactly when the server says so; otherwise it stores the Ingress under its key and changes nothing else |
| Cluster.CreatePreservesWellKeyed | controller/controller.go:145-193 | a successful Service create and a successful Ingress create each keep every stored object under its own (namespace, name) key |
| Controller.KeyOf | controller/controller.go:44 | the key function succeeds exactly on items that carry object metadata, and then yields their (namespace, name) |
| Controller.FetchKey | controller/controller.go:83-93 | processItem fetches the item's key, or the empty namespace and name when the key function failed |
| Controller.HandleAdd | controller/controller.go:43-50 | the add handler enqueues the object exactly once, and makes no API call and no Forget |
| Controller.HandleDelete | controller/controller.go:52-59 | the delete handler enqueues the object exactly once, and makes no API call and no Forget |
| Controller.HandlersAgree | controller/controller.go:43-59 | an add and a delete of the same object leave identical traces, so nothing downstream can tell them apart |
| Controller.Expose | controller/controller.go:118-127 | the Service create comes first. If it fails, no Ingress create is attempted, its error is returned unchanged, and the store is untouched. Otherwise the Ingress create follows and sees the Service already stored. If that create fails, its error is returned and the Service stays. On success both objects are stored under the Deployment's key |
| Controller.SyncDeployment | controller/controller.go:110-116 | syncDeployment returns expose's error, store and calls unchanged |
| Controller.ExposeFrame | controller/controller.go:118-127 | a sync leaves the Deployments and every Service and Ingress under another key as they were |
| Controller.ExposeNoRollback | controller/controller.go:123-126 | once the Service create succeeded, the Service stays stored even when the Ingress create fails, and the Ingresses are then unchanged |
| Controller.ExposePreservesWellKeyed | controller/controller.go:118-150 | a sync keeps every stored object under its own key |
| Controller.SecondSyncFails | controller/controller.go:123-148 | against a server that rejects duplicate creates, syncing a Deployment whose Service is already stored fails with AlreadyExists after one call and changes nothing. That includes the store a failed Ingress create leaves behind, so a retry never creates the Ingress |
| Controller.FirstSyncExposes | controller/controller.go:118-127 | against that server, one sync exposes a Deployment whose key holds no Service or Ingress yet |
| Controller.ExposeApp1 | controller/controller.go:129-187 | for Deployment `app1` in `ns1` labelled `app: app1`, the first call creates Service `app1`/`ns1` with selector `app: app1` and port `http`/80. The second creates Ingress `app1`/`ns1` with the single rewrite-target annotation `/`, whose one rule routes `/app1` by prefix to `app1:80` |
| Controller.ProcessItem | controller/controller.go:76-108 | the decision table. Shutdown gives false, with no fetch and no sync. A NotFound fetch gives true with no sync. Any other fetch error gives false with no sync. A fetched Deployment is synced, and the result is true exactly when the sync succeeded. In every case the dequeued item is forgotten, last and once, and nothing is re-added |
| Controller.NoSyncWithoutDeployment | controller/controller.go:79-101 | when the queue shuts down or the fetch fails, processItem makes no create call |
| Controller.Loop | controller/controller.go:72-73 | the `for step() {}` loop over any step. It runs the dequeue results in order, each on the store the previous step left. Every result before the last one consumed returned true, and the loop has stopped exactly when that last step returned false, so it stops at the first false. A result is left unconsumed only after such a stop. The store after the loop is the store after the consumed steps |
| Controller.ProcessItemDiscipline | controller/controller.go:77-81 | processItem, at every store and dequeue result, forgets exactly the dequeued item, re-adds nothing, and returns false on shutdown |
| Controller.ProcessStepIsProcessItem | controller/controller.go:72 | the loop's step, at every store and dequeue result, is processItem |
| Controller.Worker | controller/controller.go:71-74 | the worker loop with processItem as its step. Results are processed in order, each on the store the previous processItem left. Every result before the last consumed made processItem return true, and the worker has stopped exactly when that last one returned false: a fetch error, a sync error or shutdown ends it. A result is left unconsumed only after such a stop. The final store is the store after the consumed items |
| Controller.WorkerForgetsEveryItem | controller/controller.go:71-78 | over a whole run of the loop, the items passed to Forget are exactly the consumed items, once each and in order, and nothing is re-added to the queue |
| Controller.WorkerStopsAtShutdown | controller/controller.go:71-81 | a shutdown result ends the loop: nothing after it is consumed, and when it is consumed the loop has stopped |

## Left out

- `main.go`: the kubeconfig flag, clientset construction and informer factory startup. This is process bootstrap.
- `NewController` (controller/controller.go:28-41): wiring of the lister, the queue and the handlers. Its one consequence, that only add and delete are handled, is reflected in the handlers modelled.
- `Run` and `wait.Until` (controller/controller.go:61-69): cache sync, the stop channel, the goroutine and the one-second restart of `worker` after it returns. These are concurrency and timing. `Worker` models one run of the loop only.
- The work queue's internals: deduplication, rate limiting and backoff. The model records only the controller's own `Add` and `Forget` calls. `processItem` never calls `queue.Done`. Whatever that does to a client-go queue is outside this model.
- `cache.MetaNamespaceKeyFunc` and `cache.SplitMetaNamespaceKey`: the string form of a key. A key is the opaque pair `(namespace, name)`. A failed key derivation gives the empty pair, because the empty key splits into two empty strings.
- Other writers: the store changes only through this controller's own create calls. Changes other clients make to the cluster between the two creates of a sync, or between items, are not modelled, except through the answers `Api` gives. So the Ingress create "sees the Service already stored", and each item runs "on the store the previous step left", only in this sense. The Deployments never change during a worker run, although the NotFound branch of `processItem` exists because another client may delete a Deployment between enqueue and fetch (controller/controller.go:95-97).
- The API server's rules: duplicate rejection, validation and transient failures. Each call's error is a parameter (`Api`). `RejectDuplicates` is only an example server, used by `SecondSyncFails` and `FirstSyncExposes`.
- Controller.FetchKey: with no injected fault, the fetch of the empty key answers NotFound, so `processItem` goes on. A real client rejects an empty name before sending the request, and that error is not NotFound, so `processItem` would return false. The model shows that outcome only when `getFault` injects it for the empty key.
- Cluster.CreateService: returns the object it was given. Server-side defaulting of the returned Service is not modelled. The Ingress is built from the returned object, as in the code.
- The `klog` output (including its swapped name/namespace arguments), `context.Background()`, and every object field the code leaves unset (Service type, protocol, target port, Ingress host and class).
