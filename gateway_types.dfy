/** The controller's own intermediate records (internal/types/gateway.go). */
module GatewayTypes {
  import opened Wrappers
  import opened Kube

  /** One route path bound to a backend: the prefix, the Service, its NodePort and the node IPs at build time. */
  datatype PathInfo = PathInfo(path: string, service: Service, nodePort: int, nodeIps: seq<string>)

  /** A virtual host: its name, whether it is served over TLS, its ports and its paths in order. */
  datatype VHostInfo = VHostInfo(host: string, ssl: bool, ports: seq<int>, paths: seq<PathInfo>)

  /** The topology of one Gateway, hostname to virtual host. */
  datatype GatewayInfo = GatewayInfo(uid: string, name: string, ns: string, vhosts: map<string, VHostInfo>)

  /** TLS requirement of one hostname: a provider certificate id, or a Secret. */
  datatype TLSConfigInfo = TLSConfigInfo(externalId: string, secret: Option<Secret>)

  /** A listener as the topology builder sees it, with defaults applied. */
  datatype ListenerInfo = ListenerInfo(
    name: string,
    hostname: string,
    protocol: string,
    port: int,
    allowedFrom: string,
    selector: map<string, string>)
}
