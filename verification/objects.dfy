/**
 The Kubernetes objects the controller reads and writes, reduced to the fields
 it reads or sets. Every other field of these API types is left at its zero
 value by the controller and is not represented.
 */
module Objects {

  /** The width of the API's port numbers (`int32` in the Go types). */
  newtype Int32 = x: int | -0x8000_0000 <= x < 0x8000_0000

  /** The identity of a namespaced object: the pair its queue key encodes. */
  datatype ObjectKey = ObjectKey(namespace: string, name: string)

  /** The watched workload: a Deployment's identity and its label set. */
  datatype Deployment = Deployment(name: string, namespace: string, labels: map<string, string>)

  /** One entry of a Service's port list. */
  datatype ServicePort = ServicePort(name: string, port: Int32)

  /** A Service: identity, pod selector and exposed ports. */
  datatype Service = Service(
    name: string,
    namespace: string,
    selector: map<string, string>,
    ports: seq<ServicePort>)

  /** The path matching modes an Ingress path may carry. */
  datatype PathType = Exact | Prefix | ImplementationSpecific

  /** The Service an Ingress path forwards to, with the port given by number. */
  datatype ServiceBackend = ServiceBackend(name: string, portNumber: Int32)

  /** One HTTP path of an Ingress rule. */
  datatype IngressPath = IngressPath(path: string, pathType: PathType, backend: ServiceBackend)

  /** One Ingress rule; its host is left unset, so only its HTTP paths are kept. */
  datatype IngressRule = IngressRule(paths: seq<IngressPath>)

  /** An Ingress: identity, annotations and routing rules. */
  datatype Ingress = Ingress(
    name: string,
    namespace: string,
    annotations: map<string, string>,
    rules: seq<IngressRule>)

  function DeploymentKey(d: Deployment): ObjectKey {
    ObjectKey(d.namespace, d.name)
  }

  function ServiceKey(s: Service): ObjectKey {
    ObjectKey(s.namespace, s.name)
  }

  function IngressKey(i: Ingress): ObjectKey {
    ObjectKey(i.namespace, i.name)
  }
}
