/**
 An abstract cluster: the objects the API server holds, keyed by namespace and
 name, and the three API calls the controller makes against it (Deployment
 get, Service create, Ingress create). Whether a call fails is not decided
 here: the API server's rules are outside the controller, so an `Api` value
 carries, per call, the error (if any) the server answers with.
 */
module Cluster {
  import opened Wrappers
  import opened Objects

  /** The errors the controller tells apart: only NotFound matters to it. */
  datatype ApiError = NotFound | AlreadyExists | Other(reason: string)

  /** The cluster's objects of the three kinds the controller touches. */
  datatype Store = Store(
    deployments: map<ObjectKey, Deployment>,
    services: map<ObjectKey, Service>,
    ingresses: map<ObjectKey, Ingress>)

  /**
   The API server's answers: for each call, the error it fails with in the
   given state, or None when it carries the call out.
   */
  datatype Api = Api(
    getFault: (Store, ObjectKey) -> Option<ApiError>,
    serviceFault: (Store, Service) -> Option<ApiError>,
    ingressFault: (Store, Ingress) -> Option<ApiError>)

  /** Every stored object sits under its own key. */
  predicate WellKeyed(s: Store) {
    && (forall k :: k in s.deployments ==> DeploymentKey(s.deployments[k]) == k)
    && (forall k :: k in s.services ==> ServiceKey(s.services[k]) == k)
    && (forall k :: k in s.ingresses ==> IngressKey(s.ingresses[k]) == k)
  }

  /** `Deployments(ns).Get(name)`: the stored Deployment, or the server's error. */
  function GetDeployment(api: Api, s: Store, key: ObjectKey): (r: Result<Deployment, ApiError>)
    ensures r.Ok? ==> key in s.deployments && r.value == s.deployments[key]
    ensures api.getFault(s, key).Some? ==> r == Err(api.getFault(s, key).value)
    ensures api.getFault(s, key).None? && key !in s.deployments ==> r == Err(NotFound)
    ensures api.getFault(s, key).None? && key in s.deployments ==> r.Ok?
  {
    match api.getFault(s, key)
    case Some(e) => Err(e)
    case None => if key in s.deployments then Ok(s.deployments[key]) else Err(NotFound)
  }

  /**
   `Services(ns).Create(svc)`: on success the Service is stored under its key
   and handed back; nothing else in the store changes.
   */
  function CreateService(api: Api, s: Store, svc: Service): (r: Result<(Store, Service), ApiError>)
    ensures r.Err? <==> api.serviceFault(s, svc).Some?
    ensures r.Err? ==> r.error == api.serviceFault(s, svc).value
    ensures r.Ok? ==> r.value.1 == svc
    ensures r.Ok? ==> ServiceKey(svc) in r.value.0.services && r.value.0.services[ServiceKey(svc)] == svc
    ensures r.Ok? ==> r.value.0.services.Keys == s.services.Keys + {ServiceKey(svc)}
    ensures r.Ok? ==> forall k :: k in s.services && k != ServiceKey(svc) ==> r.value.0.services[k] == s.services[k]
    ensures r.Ok? ==> r.value.0.deployments == s.deployments && r.value.0.ingresses == s.ingresses
  {
    match api.serviceFault(s, svc)
    case Some(e) => Err(e)
    case None => Ok((s.(services := s.services[ServiceKey(svc) := svc]), svc))
  }

  /** `Ingresses(ns).Create(ing)`: on success the Ingress is stored under its key; nothing else changes. */
  function CreateIngress(api: Api, s: Store, ing: Ingress): (r: Result<Store, ApiError>)
    ensures r.Err? <==> api.ingressFault(s, ing).Some?
    ensures r.Err? ==> r.error == api.ingressFault(s, ing).value
    ensures r.Ok? ==> IngressKey(ing) in r.value.ingresses && r.value.ingresses[IngressKey(ing)] == ing
    ensures r.Ok? ==> r.value.ingresses.Keys == s.ingresses.Keys + {IngressKey(ing)}
    ensures r.Ok? ==> forall k :: k in s.ingresses && k != IngressKey(ing) ==> r.value.ingresses[k] == s.ingresses[k]
    ensures r.Ok? ==> r.value.deployments == s.deployments && r.value.services == s.services
  {
    match api.ingressFault(s, ing)
    case Some(e) => Err(e)
    case None => Ok(s.(ingresses := s.ingresses[IngressKey(ing) := ing]))
  }

  /** Creating an object keeps every object under its own key. */
  lemma CreatePreservesWellKeyed(api: Api, s: Store, svc: Service, ing: Ingress)
    requires WellKeyed(s)
    ensures CreateService(api, s, svc).Ok? ==> WellKeyed(CreateService(api, s, svc).value.0)
    ensures CreateIngress(api, s, ing).Ok? ==> WellKeyed(CreateIngress(api, s, ing).value)
  {
  }

  /**
   One possible server: gets and creates always go through, except that a
   create whose key is already taken fails with AlreadyExists. It is used only
   to show what the controller does against such a server.
   */
  function RejectDuplicates(): (api: Api)
    ensures forall s: Store, k: ObjectKey :: api.getFault(s, k) == None
    ensures forall s: Store, svc: Service ::
      api.serviceFault(s, svc) == (if ServiceKey(svc) in s.services then Some(AlreadyExists) else None)
    ensures forall s: Store, ing: Ingress ::
      api.ingressFault(s, ing) == (if IngressKey(ing) in s.ingresses then Some(AlreadyExists) else None)
  {
    Api(
      (s: Store, k: ObjectKey) => None,
      (s: Store, svc: Service) => if ServiceKey(svc) in s.services then Some(AlreadyExists) else None,
      (s: Store, ing: Ingress) => if IngressKey(ing) in s.ingresses then Some(AlreadyExists) else None)
  }
}
