/**
 * The cluster objects the controller reads (Gateway API and core Kubernetes
 * kinds), reduced to the fields its decisions look at, and an immutable
 * snapshot of the cluster standing in for the client's Get and List calls.
 * Go fields that may be nil become Option values.
 */
module Kube {
  import opened Wrappers

  /** The Gateway API group, gateway.networking.k8s.io. */
  const GatewayGroup: string := "gateway.networking.k8s.io"

  datatype NsName = NsName(namespace: string, name: string)

  datatype ParentRef = ParentRef(
    group: Option<string>,
    kind: Option<string>,
    namespace: Option<string>,
    name: string,
    sectionName: Option<string>)

  datatype BackendRef = BackendRef(
    group: Option<string>,
    name: string,
    namespace: Option<string>,
    port: Option<int>)

  datatype PathMatch = PathMatch(matchType: Option<string>, value: Option<string>)

  datatype RouteMatch = RouteMatch(path: Option<PathMatch>)

  datatype RouteRule = RouteRule(matches: seq<RouteMatch>, backendRefs: seq<BackendRef>)

  datatype HTTPRoute = HTTPRoute(
    namespace: string,
    name: string,
    parentRefs: seq<ParentRef>,
    hostnames: seq<string>,
    rules: seq<RouteRule>)

  datatype CertRef = CertRef(
    group: Option<string>,
    kind: Option<string>,
    name: string,
    namespace: Option<string>)

  /** A listener's TLS block; a nil Options map reads like an empty one. */
  datatype TLSConfig = TLSConfig(
    mode: Option<string>,
    certificateRefs: seq<CertRef>,
    options: map<string, string>)

  /** allowedRoutes.namespaces: the From policy and the selector's matchLabels, when set. */
  datatype RouteNamespaces = RouteNamespaces(from: Option<string>, matchLabels: Option<map<string, string>>)

  datatype Listener = Listener(
    name: string,
    hostname: Option<string>,
    protocol: string,
    port: int,
    tls: Option<TLSConfig>,
    namespaces: Option<RouteNamespaces>)

  /** A status condition (metav1.Condition without its transition time); status is "True" or "False". */
  datatype Condition = Condition(condType: string, status: string, reason: string, message: string, observedGeneration: int)

  /**
   * A Gateway: identity, whether its deletion timestamp is set, finalizers,
   * spec listeners, and status (conditions and addresses).
   */
  datatype Gateway = Gateway(
    namespace: string,
    name: string,
    uid: string,
    className: string,
    generation: int,
    deleting: bool,
    finalizers: seq<string>,
    listeners: seq<Listener>,
    conditions: seq<Condition>,
    addresses: seq<string>)

  datatype GatewayClass = GatewayClass(name: string, controllerName: string)

  datatype ServicePort = ServicePort(port: int, nodePort: int)

  datatype Service = Service(namespace: string, name: string, ports: seq<ServicePort>)

  datatype Secret = Secret(namespace: string, name: string, uid: string, data: map<string, string>)

  datatype NodeAddress = NodeAddress(addressType: string, address: string)

  datatype Node = Node(addresses: seq<NodeAddress>)

  /**
   * What one reconcile pass can read from the cluster.  A Get of an object
   * that is absent from its map fails; the flags make a whole List (or class
   * Get) fail with an error other than NotFound.
   */
  datatype Cluster = Cluster(
    classes: map<string, GatewayClass>,
    classReadFails: bool,
    gateways: seq<Gateway>,
    gatewayListFails: bool,
    routes: seq<HTTPRoute>,
    routeListFails: bool,
    services: map<NsName, Service>,
    namespaceLabels: map<string, map<string, string>>,
    nodes: seq<Node>,
    nodeListFails: bool,
    secrets: map<NsName, Secret>)

  /** Get of a Gateway by key: the first listed Gateway with that namespace and name. */
  function GetGateway(gws: seq<Gateway>, key: NsName): (r: Option<Gateway>)
    ensures r.Some? ==> r.value in gws && r.value.namespace == key.namespace && r.value.name == key.name
    ensures r.None? ==> forall g :: g in gws ==> g.namespace != key.namespace || g.name != key.name
  {
    if gws == [] then None
    else if gws[0].namespace == key.namespace && gws[0].name == key.name then Some(gws[0])
    else GetGateway(gws[1..], key)
  }
}
