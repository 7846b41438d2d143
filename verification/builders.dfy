/**
 The two derived objects the controller builds for a Deployment: the Service
 that selects its pods (createService, controller/controller.go:129-144) and
 the Ingress that routes `/<service name>` to that Service (createIngress,
 controller/controller.go:153-187). Both builders are pure; submitting them to
 the API is the business of the Cluster and Controller modules.
 */
module Builders {
  import opened Wrappers
  import opened Objects

  /** The name of the single Service port. */
  const HttpPortName: string := "http"

  /** The number of the single Service port, and of the Ingress backend port. */
  const HttpPort: Int32 := 80

  /** The one annotation the Ingress carries: rewrite the matched path to `/`. */
  const RewriteAnnotation: string := "nginx.ingress.kubernetes.io/rewrite-target"
  const RewriteTarget: string := "/"

  /** The Service for a Deployment's name, namespace and labels. */
  function BuildService(name: string, namespace: string, labels: map<string, string>): (svc: Service)
    ensures ServiceKey(svc) == ObjectKey(namespace, name)
    ensures svc.selector == labels
    ensures |svc.ports| == 1
    ensures svc.ports[0].name == "http" && svc.ports[0].port == 80
  {
    Service(name, namespace, labels, [ServicePort(HttpPortName, HttpPort)])
  }

  /** The Ingress path for a Service name: `fmt.Sprintf("/%s", name)`. */
  function ServicePath(name: string): (p: string)
    ensures |p| == |name| + 1
    ensures p[0] == '/'
    ensures p[1..] == name
  {
    "/" + name
  }

  /** The Ingress that exposes a Service under `/<service name>`. */
  function BuildIngress(svc: Service): (ing: Ingress)
    ensures IngressKey(ing) == ServiceKey(svc)
    ensures ing.annotations.Keys == {"nginx.ingress.kubernetes.io/rewrite-target"}
    ensures ing.annotations["nginx.ingress.kubernetes.io/rewrite-target"] == "/"
    ensures |ing.rules| == 1 && |ing.rules[0].paths| == 1
    ensures ing.rules[0].paths[0].path == ServicePath(svc.name)
    ensures ing.rules[0].paths[0].pathType == Prefix
    ensures ing.rules[0].paths[0].backend == ServiceBackend(svc.name, 80)
  {
    Ingress(
      svc.name,
      svc.namespace,
      map[RewriteAnnotation := RewriteTarget],
      [IngressRule([IngressPath(ServicePath(svc.name), Prefix, ServiceBackend(svc.name, HttpPort))])])
  }

  // ---------------------------------------------------------------------------
  // Independent descriptions of what the builders produce, and the lemmas that
  // tie the builders to them.

  /** The Service name an Ingress path routes for, when the path has the `/<name>` form. */
  function ServiceNameOfPath(p: string): (r: Option<string>)
  {
    if |p| > 0 && p[0] == '/' then Some(p[1..]) else None
  }

  /** Every backend named by any path of any rule of an Ingress. */
  function Backends(ing: Ingress): set<ServiceBackend> {
    set r, p | r in ing.rules && p in r.paths :: p.backend
  }

  /** A Service has the shape the controller gives every Service it creates. */
  predicate IsExposingService(svc: Service) {
    svc.ports == [ServicePort("http", 80)]
  }

  /**
   An Ingress serves a Service: it lives beside it, and every backend it names
   is that Service on a port the Service exposes.
   */
  predicate RoutesTo(ing: Ingress, svc: Service) {
    && IngressKey(ing) == ServiceKey(svc)
    && Backends(ing) != {}
    && forall b :: b in Backends(ing) ==>
         b.name == svc.name && exists sp :: sp in svc.ports && sp.port == b.portNumber
  }

  /** The path format and its parse are inverse to each other, in both directions. */
  lemma ServicePathRoundTrip(name: string, p: string)
    ensures ServiceNameOfPath(ServicePath(name)) == Some(name)
    ensures ServiceNameOfPath(p) == Some(name) ==> ServicePath(name) == p
  {
  }

  /** A Service is one the builder produces exactly when it has the controller's shape. */
  lemma ServiceImage(svc: Service)
    ensures IsExposingService(svc) <==> BuildService(svc.name, svc.namespace, svc.selector) == svc
  {
  }

  /** Distinct Deployments never share a built Service: the builder loses no input. */
  lemma BuildServiceInjective(n1: string, ns1: string, l1: map<string, string>,
                              n2: string, ns2: string, l2: map<string, string>)
    ensures BuildService(n1, ns1, l1) == BuildService(n2, ns2, l2) <==> n1 == n2 && ns1 == ns2 && l1 == l2
  {
  }

  /** The Ingress depends on the Service's identity and on nothing else. */
  lemma BuildIngressIdentity(a: Service, b: Service)
    ensures BuildIngress(a) == BuildIngress(b) <==> ServiceKey(a) == ServiceKey(b)
  {
  }

  /** The built Ingress names exactly one backend: the Service on port 80. */
  lemma BuildIngressBackends(svc: Service)
    ensures Backends(BuildIngress(svc)) == {ServiceBackend(svc.name, 80)}
  {
  }

  /** The Ingress built from a built Service routes to that Service's own port. */
  lemma ExposurePairConsistent(name: string, namespace: string, labels: map<string, string>)
    ensures RoutesTo(BuildIngress(BuildService(name, namespace, labels)), BuildService(name, namespace, labels))
  {
    var svc := BuildService(name, namespace, labels);
    BuildIngressBackends(svc);
    assert svc.ports[0] in svc.ports;
  }
}
