/**
 The reconcile-and-expose path of the controller (controller/controller.go):
 the informer's add and delete handlers, the expose/sync sequence against an
 abstract cluster, the per-item decision of `processItem`, and the `worker`
 loop that repeats it. The work queue, the informer and the API server are
 outside the model: what the queue hands out is an input, what the API server
 answers is an `Api`, and the calls the controller makes are recorded as a
 sequence of effects.
 */
module Controller {
  import opened Wrappers
  import opened Objects
  import opened Builders
  import opened Cluster

  /**
   An object the informer hands to a handler and the queue hands back.
   `meta` is the namespace and name the key function reads from it, or None
   when the key function cannot find object metadata in it.
   */
  datatype Item = Item(meta: Option<ObjectKey>)

  /** What one `queue.Get()` returns: the item (nil when None) and the shutdown flag. */
  datatype Dequeued = Dequeued(item: Option<Item>, shutdown: bool)

  /** The calls the controller makes on the queue and on the API server, in order. */
  datatype Effect =
    | Enqueue(added: Item)
    | Forget(forgotten: Option<Item>)
    | GetDeploymentCall(key: ObjectKey)
    | CreateServiceCall(svc: Service)
    | CreateIngressCall(ing: Ingress)

  /** The key function's one failure: the value carries no object metadata. */
  datatype KeyError = NoObjectMeta

  // ---------------------------------------------------------------------------
  // Effect logs

  /** The items added to the queue, in order. */
  function Enqueued(effects: seq<Effect>): seq<Item> {
    if |effects| == 0 then []
    else (if effects[0].Enqueue? then [effects[0].added] else []) + Enqueued(effects[1..])
  }

  /** The items passed to `queue.Forget`, in order. */
  function Forgotten(effects: seq<Effect>): seq<Option<Item>> {
    if |effects| == 0 then []
    else (if effects[0].Forget? then [effects[0].forgotten] else []) + Forgotten(effects[1..])
  }

  /** An effect is a create call on the API server. */
  predicate IsCreate(e: Effect) {
    e.CreateServiceCall? || e.CreateIngressCall?
  }

  /** The added items of a joined log are those of its two parts, in order. */
  lemma {:induction false} EnqueuedAppend(a: seq<Effect>, b: seq<Effect>)
    ensures Enqueued(a + b) == Enqueued(a) + Enqueued(b)
    decreases |a|
  {
    if |a| == 0 {
      assert a + b == b;
    } else {
      assert (a + b)[0] == a[0];
      assert (a + b)[1..] == a[1..] + b;
      EnqueuedAppend(a[1..], b);
    }
  }

  /** The forgotten items of a joined log are those of its two parts, in order. */
  lemma {:induction false} ForgottenAppend(a: seq<Effect>, b: seq<Effect>)
    ensures Forgotten(a + b) == Forgotten(a) + Forgotten(b)
    decreases |a|
  {
    if |a| == 0 {
      assert a + b == b;
    } else {
      assert (a + b)[0] == a[0];
      assert (a + b)[1..] == a[1..] + b;
      ForgottenAppend(a[1..], b);
    }
  }

  /** Both queue logs distribute over the joining of logs. */
  lemma LogsAppend(a: seq<Effect>, b: seq<Effect>)
    ensures Enqueued(a + b) == Enqueued(a) + Enqueued(b)
    ensures Forgotten(a + b) == Forgotten(a) + Forgotten(b)
  {
    EnqueuedAppend(a, b);
    ForgottenAppend(a, b);
  }

  /** A log without queue effects adds and forgets nothing. */
  lemma {:induction false} NoQueueEffects(a: seq<Effect>)
    requires forall i :: 0 <= i < |a| ==> !a[i].Enqueue? && !a[i].Forget?
    ensures Enqueued(a) == [] && Forgotten(a) == []
  {
    if |a| > 0 {
      NoQueueEffects(a[1..]);
    }
  }

  // ---------------------------------------------------------------------------
  // Keys and event handlers (controller/controller.go:43-59)

  /** `cache.MetaNamespaceKeyFunc`, read as the pair the key encodes. */
  function KeyOf(item: Option<Item>): (r: Result<ObjectKey, KeyError>)
    ensures r.Ok? <==> item.Some? && item.value.meta.Some?
    ensures r.Ok? ==> r.value == item.value.meta.value
  {
    if item.Some? && item.value.meta.Some? then Ok(item.value.meta.value) else Err(NoObjectMeta)
  }

  /**
   The namespace and name `processItem` fetches. A key error is only logged:
   the empty key then splits into an empty namespace and an empty name.
   */
  function FetchKey(item: Option<Item>): (k: ObjectKey)
    ensures KeyOf(item).Ok? ==> k == KeyOf(item).value
    ensures KeyOf(item).Err? ==> k == ObjectKey("", "")
  {
    match KeyOf(item)
    case Ok(key) => key
    case Err(_) => ObjectKey("", "")
  }

  /** `handleAdd`: the key is computed for the log only; the object is enqueued in every case. */
  function HandleAdd(obj: Item): (effects: seq<Effect>)
    ensures Enqueued(effects) == [obj]
    ensures Forgotten(effects) == []
    ensures forall i :: 0 <= i < |effects| ==> !IsCreate(effects[i]) && !effects[i].GetDeploymentCall?
  {
    [Enqueue(obj)]
  }

  /** `handleDelete`: as `handleAdd`; the queue learns nothing of the deletion. */
  function HandleDelete(obj: Item): (effects: seq<Effect>)
    ensures Enqueued(effects) == [obj]
    ensures Forgotten(effects) == []
    ensures forall i :: 0 <= i < |effects| ==> !IsCreate(effects[i]) && !effects[i].GetDeploymentCall?
  {
    [Enqueue(obj)]
  }

  /**
   An add and a delete of the same object leave identical traces: the worker
   cannot tell a deleted Deployment's item from a created one's.
   */
  lemma HandlersAgree(obj: Item)
    ensures HandleAdd(obj) == HandleDelete(obj)
  {
  }

  // ---------------------------------------------------------------------------
  // Expose and sync (controller/controller.go:110-193)

  /** The Service the controller creates for a Deployment. */
  function ServiceFor(dep: Deployment): Service {
    BuildService(dep.name, dep.namespace, dep.labels)
  }

  /** The Ingress the controller creates for a Deployment, from the Service create returned. */
  function IngressFor(dep: Deployment): Ingress {
    BuildIngress(ServiceFor(dep))
  }

  /** The store once the Deployment's Service has been created in it. */
  function WithService(s: Store, dep: Deployment): Store {
    s.(services := s.services[DeploymentKey(dep) := ServiceFor(dep)])
  }

  /** The store once both derived objects have been created in it. */
  function WithExposure(s: Store, dep: Deployment): Store {
    var t := WithService(s, dep);
    t.(ingresses := t.ingresses[DeploymentKey(dep) := IngressFor(dep)])
  }

  /** A Deployment is exposed: its Service and Ingress are stored under its own key. */
  predicate Exposed(s: Store, dep: Deployment) {
    && DeploymentKey(dep) in s.services && s.services[DeploymentKey(dep)] == ServiceFor(dep)
    && DeploymentKey(dep) in s.ingresses && s.ingresses[DeploymentKey(dep)] == IngressFor(dep)
  }

  /** Two stores hold the same Deployments and agree on every Service and Ingress outside `key`. */
  predicate SameOutside(s: Store, t: Store, key: ObjectKey) {
    && s.deployments == t.deployments
    && s.services.Keys - {key} == t.services.Keys - {key}
    && (forall k :: k != key && k in s.services && k in t.services ==> s.services[k] == t.services[k])
    && s.ingresses.Keys - {key} == t.ingresses.Keys - {key}
    && (forall k :: k != key && k in s.ingresses && k in t.ingresses ==> s.ingresses[k] == t.ingresses[k])
  }

  /** The result of a sync: the store after it, the calls made, and the error returned. */
  datatype SyncOutcome = SyncOutcome(store: Store, effects: seq<Effect>, err: Option<ApiError>)

  /**
   `expose`: create the Service, then the Ingress built from the Service the
   create returned; stop at the first error and return it as it is, undoing
   nothing.
   */
  function Expose(api: Api, s: Store, dep: Deployment): (r: SyncOutcome)
    // the Service create is always the first call, and the only one when it fails
    ensures 1 <= |r.effects| <= 2
    ensures r.effects[0] == CreateServiceCall(ServiceFor(dep))
    ensures |r.effects| == 1 <==> api.serviceFault(s, ServiceFor(dep)).Some?
    ensures api.serviceFault(s, ServiceFor(dep)).Some? ==>
      r.err == api.serviceFault(s, ServiceFor(dep)) && r.store == s
    // otherwise the Ingress create follows and sees the Service already stored
    ensures |r.effects| == 2 ==> r.effects[1] == CreateIngressCall(IngressFor(dep))
    ensures |r.effects| == 2 ==>
      r.err == api.ingressFault(WithService(s, dep), IngressFor(dep))
    ensures |r.effects| == 2 && r.err.Some? ==> r.store == WithService(s, dep)
    ensures r.err.None? ==> r.store == WithExposure(s, dep) && Exposed(r.store, dep)
    // the queue is not touched
    ensures Enqueued(r.effects) == [] && Forgotten(r.effects) == []
  {
    var svc := ServiceFor(dep);
    match CreateService(api, s, svc)
    case Err(e) => SyncOutcome(s, [CreateServiceCall(svc)], Some(e))
    case Ok((s1, created)) =>
      var ing := BuildIngress(created);
      var effects := [CreateServiceCall(svc), CreateIngressCall(ing)];
      NoQueueEffects(effects);
      match CreateIngress(api, s1, ing)
      case Err(e) => SyncOutcome(s1, effects, Some(e))
      case Ok(s2) => SyncOutcome(s2, effects, None)
  }

  /** `syncDeployment`: the result of `expose`, its error passed on unchanged. */
  function SyncDeployment(api: Api, s: Store, dep: Deployment): (r: SyncOutcome)
    ensures r.err == Expose(api, s, dep).err
    ensures r.store == Expose(api, s, dep).store && r.effects == Expose(api, s, dep).effects
  {
    Expose(api, s, dep)
  }

  /** A sync changes nothing but the Deployment's own Service and Ingress. */
  lemma ExposeFrame(api: Api, s: Store, dep: Deployment)
    ensures SameOutside(s, Expose(api, s, dep).store, DeploymentKey(dep))
  {
  }

  /** Once the Service create has succeeded it stays, whatever the Ingress create does. */
  lemma ExposeNoRollback(api: Api, s: Store, dep: Deployment)
    requires api.serviceFault(s, ServiceFor(dep)).None?
    ensures Expose(api, s, dep).store.services[DeploymentKey(dep)] == ServiceFor(dep)
    ensures Expose(api, s, dep).err.Some? ==> Expose(api, s, dep).store.ingresses == s.ingresses
  {
  }

  /** Creating both objects keeps every stored object under its own key. */
  lemma ExposePreservesWellKeyed(api: Api, s: Store, dep: Deployment)
    requires WellKeyed(s)
    ensures WellKeyed(Expose(api, s, dep).store)
  {
  }

  /**
   Against a server that rejects duplicate creates, syncing a Deployment whose
   Service is already stored fails on the Service with AlreadyExists and
   changes nothing: the sync is not idempotent. This covers the store a failed
   Ingress create leaves behind, so a retry never creates the missing Ingress.
   */
  lemma SecondSyncFails(s: Store, dep: Deployment)
    requires DeploymentKey(dep) in s.services
    ensures Expose(RejectDuplicates(), s, dep).err == Some(AlreadyExists)
    ensures Expose(RejectDuplicates(), s, dep).store == s
    ensures |Expose(RejectDuplicates(), s, dep).effects| == 1
  {
  }

  /**
   Against the same server, a Deployment with no Service or Ingress yet under
   its key is exposed by one sync.
   */
  lemma FirstSyncExposes(s: Store, dep: Deployment)
    requires DeploymentKey(dep) !in s.services && DeploymentKey(dep) !in s.ingresses
    ensures Expose(RejectDuplicates(), s, dep).err == None
    ensures Exposed(Expose(RejectDuplicates(), s, dep).store, dep)
  {
  }

  /** The calls expose makes for Deployment `app1` in `ns1` labelled `app: app1`. */
  lemma ExposeApp1(api: Api, s: Store)
    requires api.serviceFault(s, ServiceFor(Deployment("app1", "ns1", map["app" := "app1"]))).None?
    ensures var r := Expose(api, s, Deployment("app1", "ns1", map["app" := "app1"]));
      && r.effects[0] == CreateServiceCall(Service("app1", "ns1", map["app" := "app1"], [ServicePort("http", 80)]))
      && r.effects[1].CreateIngressCall?
      && IngressKey(r.effects[1].ing) == ObjectKey("ns1", "app1")
      && r.effects[1].ing.annotations == map["nginx.ingress.kubernetes.io/rewrite-target" := "/"]
      && r.effects[1].ing.rules == [IngressRule([IngressPath("/app1", Prefix, ServiceBackend("app1", 80))])]
  {
    assert ServicePath("app1") == "/app1";
  }

  // ---------------------------------------------------------------------------
  // One queue item (controller/controller.go:76-108)

  /** The result of `processItem`: whether the worker goes on, the store after, the calls made. */
  datatype ItemOutcome = ItemOutcome(proceed: bool, store: Store, effects: seq<Effect>)

  /**
   `processItem`: on shutdown stop; otherwise fetch the Deployment the item
   names, treat NotFound as done, any other fetch error as a failure, and
   otherwise sync it. The item is forgotten last, whatever happened, and
   nothing is put back on the queue.
   */
  function ProcessItem(api: Api, s: Store, dq: Dequeued): (r: ItemOutcome)
    // the deferred Forget: the last call, the only queue call
    ensures |r.effects| >= 1 && r.effects[|r.effects| - 1] == Forget(dq.item)
    ensures Forgotten(r.effects) == [dq.item]
    ensures Enqueued(r.effects) == []
    // shutdown: stop, with no fetch and no sync
    ensures dq.shutdown ==> !r.proceed && r.effects == [Forget(dq.item)] && r.store == s
    // otherwise the fetch comes first
    ensures !dq.shutdown ==> r.effects[0] == GetDeploymentCall(FetchKey(dq.item))
    // fetch answered NotFound: go on, with no sync
    ensures !dq.shutdown && GetDeployment(api, s, FetchKey(dq.item)) == Err(NotFound) ==>
      r.proceed && r.store == s && |r.effects| == 2
    // any other fetch error: stop, with no sync
    ensures !dq.shutdown && GetDeployment(api, s, FetchKey(dq.item)).Err?
                         && GetDeployment(api, s, FetchKey(dq.item)) != Err(NotFound) ==>
      !r.proceed && r.store == s && |r.effects| == 2
    // fetched: sync the Deployment the server returned; go on exactly when the sync succeeded
    ensures !dq.shutdown && GetDeployment(api, s, FetchKey(dq.item)).Ok? ==>
      var dep := GetDeployment(api, s, FetchKey(dq.item)).value;
      && (r.proceed <==> SyncDeployment(api, s, dep).err.None?)
      && r.store == SyncDeployment(api, s, dep).store
      && r.effects[1..|r.effects| - 1] == SyncDeployment(api, s, dep).effects
  {
    if dq.shutdown then
      ForgetOnlyLog(dq.item);
      ItemOutcome(false, s, [Forget(dq.item)])
    else
      var key := FetchKey(dq.item);
      var fetched := GetDeployment(api, s, key);
      match fetched
      case Err(e) =>
        FetchSyncForgetLog(key, [], dq.item);
        ItemOutcome(e.NotFound?, s, [GetDeploymentCall(key)] + [] + [Forget(dq.item)])
      case Ok(dep) =>
        var sync := SyncDeployment(api, s, dep);
        var effects := [GetDeploymentCall(key)] + sync.effects + [Forget(dq.item)];
        FetchSyncForgetLog(key, sync.effects, dq.item);
        ItemOutcome(sync.err.None?, sync.store, effects)
  }

  /** A log made of one Forget forgets that item and adds nothing. */
  lemma ForgetOnlyLog(item: Option<Item>)
    ensures Enqueued([Forget(item)]) == [] && Forgotten([Forget(item)]) == [item]
  {
    assert [Forget(item)][1..] == [];
  }

  /** A fetch, then calls that leave the queue alone, then a Forget: the log's queue calls are that one Forget. */
  lemma FetchSyncForgetLog(key: ObjectKey, mid: seq<Effect>, item: Option<Item>)
    requires Enqueued(mid) == [] && Forgotten(mid) == []
    ensures var e := [GetDeploymentCall(key)] + mid + [Forget(item)];
      && Enqueued(e) == [] && Forgotten(e) == [item]
      && e[0] == GetDeploymentCall(key) && e[|e| - 1] == Forget(item) && e[1..|e| - 1] == mid
  {
    var e := [GetDeploymentCall(key)] + mid + [Forget(item)];
    LogsAppend([GetDeploymentCall(key)], mid);
    LogsAppend([GetDeploymentCall(key)] + mid, [Forget(item)]);
    assert e[1..|e| - 1] == mid;
  }

  /** No item ever creates anything when the fetch did not return a Deployment. */
  lemma NoSyncWithoutDeployment(api: Api, s: Store, dq: Dequeued)
    requires dq.shutdown || GetDeployment(api, s, FetchKey(dq.item)).Err?
    ensures forall i :: 0 <= i < |ProcessItem(api, s, dq).effects| ==> !IsCreate(ProcessItem(api, s, dq).effects[i])
  {
  }

  // ---------------------------------------------------------------------------
  // The worker loop (controller/controller.go:71-74)

  /** The items of a script of dequeue results. */
  function ItemsOf(script: seq<Dequeued>): (items: seq<Option<Item>>)
    ensures |items| == |script|
    ensures forall i :: 0 <= i < |script| ==> items[i] == script[i].item
  {
    seq(|script|, i requires 0 <= i < |script| => script[i].item)
  }

  /** The items of a non-empty prefix: the first one, then the prefix of the rest. */
  lemma ItemsOfPrefix(script: seq<Dequeued>, n: nat)
    requires n < |script|
    ensures ItemsOf(script[..n + 1]) == [script[0].item] + ItemsOf(script[1..][..n])
  {
  }

  /**
   The result of running `worker` over a script of dequeue results: the store
   after, the calls made, how many results were consumed, and whether the last
   `processItem` returned false.
   */
  datatype WorkerRun = WorkerRun(store: Store, effects: seq<Effect>, consumed: nat, stopped: bool)

  /** A step keeps the queue discipline of `processItem`: it forgets its item, re-adds nothing, and stops on shutdown. */
  ghost predicate QueueDiscipline(step: (Store, Dequeued) -> ItemOutcome) {
    forall st: Store, dq: Dequeued ::
      && Forgotten(step(st, dq).effects) == [dq.item]
      && Enqueued(step(st, dq).effects) == []
      && (dq.shutdown ==> !step(st, dq).proceed)
  }

  /** The store after the first `n` results of the script have been run through `step`, one after another. */
  function StoreAfter(step: (Store, Dequeued) -> ItemOutcome, s: Store, script: seq<Dequeued>, n: nat): Store
    requires n <= |script|
    decreases n
  {
    if n == 0 then s else step(StoreAfter(step, s, script, n - 1), script[n - 1]).store
  }

  /** Running `n + 1` results is running the first one, then `n` results of the rest. */
  lemma {:induction false} StoreAfterTail(step: (Store, Dequeued) -> ItemOutcome, s: Store, script: seq<Dequeued>, n: nat)
    requires n < |script|
    ensures StoreAfter(step, s, script, n + 1) == StoreAfter(step, step(s, script[0]).store, script[1..], n)
    decreases n
  {
    if n > 0 {
      StoreAfterTail(step, s, script, n - 1);
      assert script[1..][n - 1] == script[n];
    }
  }

  /**
   If the first result went on and every later one up to `m` went on in the
   run of the rest, then every result up to `m` went on in the whole run.
   */
  lemma PrefixProceeds(step: (Store, Dequeued) -> ItemOutcome, s: Store, script: seq<Dequeued>, m: nat)
    requires 1 <= m < |script|
    requires step(s, script[0]).proceed
    requires forall j :: 0 <= j < m - 1 ==>
      step(StoreAfter(step, step(s, script[0]).store, script[1..], j), script[1..][j]).proceed
    ensures forall j :: 0 <= j < m ==> step(StoreAfter(step, s, script, j), script[j]).proceed
  {
    forall j | 1 <= j < m
      ensures step(StoreAfter(step, s, script, j), script[j]).proceed
    {
      StoreAfterTail(step, s, script, j - 1);
      assert script[1..][j - 1] == script[j];
    }
  }

  /**
   `for step() {}` over a script of dequeue results: run the step while it
   returns true. The script stands for what successive `queue.Get()` calls
   return; running out of it stands for `Get` blocking.
   */
  function Loop(step: (Store, Dequeued) -> ItemOutcome, s: Store, script: seq<Dequeued>): (r: WorkerRun)
    ensures r.consumed <= |script|
    ensures r.consumed < |script| ==> r.stopped
    // every result but the last consumed went on, each step running on the store the previous one left
    ensures forall j :: 0 <= j < r.consumed - 1 ==> step(StoreAfter(step, s, script, j), script[j]).proceed
    // the loop stops exactly when the last step it ran returned false
    ensures r.stopped <==> r.consumed >= 1 && !step(StoreAfter(step, s, script, r.consumed - 1), script[r.consumed - 1]).proceed
    ensures r.store == StoreAfter(step, s, script, r.consumed)
    decreases |script|
  {
    if |script| == 0 then
      WorkerRun(s, [], 0, false)
    else
      var p := step(s, script[0]);
      if !p.proceed then
        WorkerRun(p.store, p.effects, 1, true)
      else
        var rest := Loop(step, p.store, script[1..]);
        if rest.consumed == 0 then
          WorkerRun(rest.store, p.effects + rest.effects, 1, false)
        else
          assert script[rest.consumed] == script[1..][rest.consumed - 1];
          StoreAfterTail(step, s, script, rest.consumed - 1);
          StoreAfterTail(step, s, script, rest.consumed);
          PrefixProceeds(step, s, script, rest.consumed);
          WorkerRun(rest.store, p.effects + rest.effects, rest.consumed + 1, rest.stopped)
  }

  /** A loop over a disciplined step forgets every consumed item, once and in order, and re-adds nothing. */
  lemma {:induction false} LoopForgetsEveryItem(step: (Store, Dequeued) -> ItemOutcome, s: Store, script: seq<Dequeued>)
    requires QueueDiscipline(step)
    ensures Forgotten(Loop(step, s, script).effects) == ItemsOf(script[..Loop(step, s, script).consumed])
    ensures Enqueued(Loop(step, s, script).effects) == []
    decreases |script|
  {
    if |script| > 0 {
      var p := step(s, script[0]);
      assert Forgotten(p.effects) == [script[0].item] && Enqueued(p.effects) == [];
      if !p.proceed {
        assert script[..1] == [script[0]];
      } else {
        var rest := Loop(step, p.store, script[1..]);
        LoopForgetsEveryItem(step, p.store, script[1..]);
        LogsAppend(p.effects, rest.effects);
        ItemsOfPrefix(script, rest.consumed);
      }
    }
  }

  /** A loop over a disciplined step consumes nothing after a shutdown result. */
  lemma {:induction false} LoopStopsAtShutdown(step: (Store, Dequeued) -> ItemOutcome, s: Store, script: seq<Dequeued>, i: nat)
    requires QueueDiscipline(step)
    requires i < |script| && script[i].shutdown
    ensures Loop(step, s, script).consumed <= i + 1
    decreases |script|
  {
    var p := step(s, script[0]);
    if i == 0 {
      assert !p.proceed;
    } else if p.proceed {
      LoopStopsAtShutdown(step, p.store, script[1..], i - 1);
    }
  }

  /** `processItem` as the step of the worker loop. */
  function ProcessStep(api: Api): (Store, Dequeued) -> ItemOutcome {
    (st: Store, dq: Dequeued) => ProcessItem(api, st, dq)
  }

  /** The step is `processItem` itself, at every store and dequeue result. */
  lemma ProcessStepIsProcessItem(api: Api, st: Store, dq: Dequeued)
    ensures ProcessStep(api)(st, dq) == ProcessItem(api, st, dq)
  {
  }

  /** `processItem` is a disciplined step. */
  lemma ProcessItemDiscipline(api: Api)
    ensures QueueDiscipline(ProcessStep(api))
  {
  }

  /**
   `worker` (controller/controller.go:71-74): the loop whose step is
   `processItem`, written `ProcessStep(api)`.
   */
  function Worker(api: Api, s: Store, script: seq<Dequeued>): (r: WorkerRun)
    ensures r.consumed <= |script|
    ensures r.consumed < |script| ==> r.stopped
    // every result but the last consumed made processItem return true, on the store the previous one left
    ensures forall j :: 0 <= j < r.consumed - 1 ==>
      ProcessStep(api)(StoreAfter(ProcessStep(api), s, script, j), script[j]).proceed
    // the loop stops exactly when the last processItem it ran returned false
    ensures r.stopped <==> (r.consumed >= 1 &&
      !ProcessStep(api)(StoreAfter(ProcessStep(api), s, script, r.consumed - 1), script[r.consumed - 1]).proceed)
    ensures r.store == StoreAfter(ProcessStep(api), s, script, r.consumed)
  {
    Loop(ProcessStep(api), s, script)
  }

  /** Every item the worker consumes is forgotten, once and in order, and nothing is re-added. */
  lemma WorkerForgetsEveryItem(api: Api, s: Store, script: seq<Dequeued>)
    ensures Forgotten(Worker(api, s, script).effects) == ItemsOf(script[..Worker(api, s, script).consumed])
    ensures Enqueued(Worker(api, s, script).effects) == []
  {
    ProcessItemDiscipline(api);
    LoopForgetsEveryItem(ProcessStep(api), s, script);
  }

  /** A shutdown ends the worker: it is the last result consumed, and the worker has then stopped. */
  lemma WorkerStopsAtShutdown(api: Api, s: Store, script: seq<Dequeued>, i: nat)
    requires i < |script| && script[i].shutdown
    ensures Worker(api, s, script).consumed <= i + 1
    ensures Worker(api, s, script).consumed == i + 1 ==> Worker(api, s, script).stopped
  {
    ProcessItemDiscipline(api);
    LoopStopsAtShutdown(ProcessStep(api), s, script, i);
    var r := Worker(api, s, script);
    if r.consumed == i + 1 {
      var before := StoreAfter(ProcessStep(api), s, script, i);
      ProcessStepIsProcessItem(api, before, script[i]);
      assert !ProcessStep(api)(before, script[r.consumed - 1]).proceed;
    }
  }
}
