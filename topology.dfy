/**
 * The topology builder (buildGatewayInfo and getNodesIpList in
 * internal/gateway/controller/gateway.go): from a Gateway's listeners, the
 * attached HTTPRoutes, their backend Services and the nodes, it assembles the
 * map hostname -> virtual host, or fails on the first validation error.
 *
 * Each loop of the source is a method whose result is proved equal to a
 * specification function.  The specification of a loop that may fail is a
 * "remaining work" fold: F(state, xs) performs the step for xs[0] and goes on
 * with xs[1..], so the loop invariant reads F(start, xs) == F(current, xs[i..]).
 */
module Topology {
  import opened Wrappers
  import opened Text
  import opened Kube
  import opened GatewayTypes
  import opened Matching

  /** The errors buildGatewayInfo returns, in the order the source checks them. */
  datatype BuildError =
    | NodesListFailed
    | DuplicateListener(listener: string)
    | RoutesListFailed
    | MissingHostnames(routeNs: string, routeName: string)
    | InvalidHostname(routeNs: string, routeName: string, host: string)
    | NamespaceLabelsFailed(namespace: string)
    | DomainConflict(host: string, previous: string, current: string)
    | NonCoreBackendGroup(group: string)
    | ServiceGetFailed(namespace: string, name: string)
    | NoNodePort(service: string)
    | PortNotFound(service: string, port: int)
  {
    function Message(): string {
      match this
      case NodesListFailed => "failed to get nodes IPs"
      case DuplicateListener(n) => "duplicate listener name: " + Quote(n)
      case RoutesListFailed => "failed to list HTTPRoutes"
      case MissingHostnames(ns, n) =>
        "HTTPRoute " + ns + "/" + n + ": Hostname must be specified (no wildcards, no empty values supported)"
      case InvalidHostname(ns, n, h) =>
        "HTTPRoute " + ns + "/" + n + ": Invalid hostname " + Quote(h) + " (must be concrete, no wildcards, no empty)"
      case NamespaceLabelsFailed(ns) => "cannot get labels for namespace " + Quote(ns)
      case DomainConflict(h, p, c) => "domain " + Quote(h) + " used in several HTTPRoute: " + Quote(p) + " and " + Quote(c)
      case NonCoreBackendGroup(g) => "non-core backend groups not supported: " + g
      case ServiceGetFailed(ns, n) => "failed to get service " + ns + "/" + n
      case NoNodePort(s) => "service " + s + " has no NodePort (only NodePort/LoadBalancer supported)"
      case PortNotFound(s, p) => "service " + s + ": port " + IntToString(p) + " not found"
    }
  }

  // ---------------------------------------------------------------- nodes

  predicate IsNodeIpType(a: NodeAddress) {
    a.addressType == "ExternalIP" || a.addressType == "InternalIP"
  }

  /** The node's first address of type ExternalIP or InternalIP, whichever comes first. */
  function FirstNodeIp(addrs: seq<NodeAddress>): (r: Option<string>)
    ensures r.None? <==> forall k :: 0 <= k < |addrs| ==> !IsNodeIpType(addrs[k])
    ensures r.Some? ==>
      exists k :: 0 <= k < |addrs| && IsNodeIpType(addrs[k]) && addrs[k].address == r.value &&
        forall j :: 0 <= j < k ==> !IsNodeIpType(addrs[j])
  {
    if addrs == [] then None
    else if IsNodeIpType(addrs[0]) then Some(addrs[0].address)
    else
      var rest := FirstNodeIp(addrs[1..]);
      assert forall k :: 1 <= k < |addrs| ==> addrs[k] == addrs[1..][k - 1];
      rest
  }

  /** One IP per node that has an address of either kind, in node order. */
  function NodeIpList(nodes: seq<Node>): (ips: seq<string>)
    ensures |ips| <= |nodes|
    ensures forall ip :: ip in ips ==> exists n :: n in nodes && FirstNodeIp(n.addresses) == Some(ip)
  {
    if nodes == [] then []
    else
      var front := NodeIpList(nodes[..|nodes| - 1]);
      assert forall n :: n in nodes[..|nodes| - 1] ==> n in nodes;
      match FirstNodeIp(nodes[|nodes| - 1].addresses)
      case None => front
      case Some(ip) => front + [ip]
  }

  /** getNodesIpList: the inner loop stops at the first address of either kind. */
  method GetNodesIpList(cluster: Cluster) returns (r: Result<seq<string>, BuildError>)
    ensures cluster.nodeListFails ==> r == Err(NodesListFailed)
    ensures !cluster.nodeListFails ==> r == Ok(NodeIpList(cluster.nodes))
  {
    if cluster.nodeListFails {
      return Err(NodesListFailed);
    }
    var nodes := cluster.nodes;
    var ips: seq<string> := [];
    var i := 0;
    while i < |nodes|
      invariant 0 <= i <= |nodes|
      invariant ips == NodeIpList(nodes[..i])
    {
      var addrs := nodes[i].addresses;
      var j := 0;
      while j < |addrs|
        invariant 0 <= j <= |addrs|
        invariant FirstNodeIp(addrs) == FirstNodeIp(addrs[j..])
      {
        if IsNodeIpType(addrs[j]) {
          break;
        }
        assert addrs[j..][1..] == addrs[j + 1..];
        j := j + 1;
      }
      if j < |addrs| {
        ips := ips + [addrs[j].address];
      }
      assert nodes[..i + 1][..i] == nodes[..i];
      i := i + 1;
    }
    assert nodes[..i] == nodes;
    return Ok(ips);
  }

  // ------------------------------------------------------------ listeners

  /** A listener with the defaults applied: empty hostname, policy "Same", no selector. */
  function ToListenerInfo(l: Listener): (info: ListenerInfo)
    ensures info.name == l.name && info.protocol == l.protocol && info.port == l.port
    ensures info.hostname == (if l.hostname.Some? then l.hostname.value else "")
    ensures info.allowedFrom == (if l.namespaces.Some? && l.namespaces.value.from.Some? then l.namespaces.value.from.value else "Same")
    ensures info.selector != map[] ==>
      l.namespaces.Some? && l.namespaces.value.from == Some("Selector") && l.namespaces.value.matchLabels == Some(info.selector)
  {
    var hostname := if l.hostname.Some? then l.hostname.value else "";
    var allowedFrom := if l.namespaces.Some? && l.namespaces.value.from.Some? then l.namespaces.value.from.value else "Same";
    var selector :=
      if l.namespaces.Some? && l.namespaces.value.from == Some("Selector") && l.namespaces.value.matchLabels.Some?
      then l.namespaces.value.matchLabels.value else map[];
    ListenerInfo(l.name, hostname, l.protocol, l.port, allowedFrom, selector)
  }

  /** The listener pass: names already in seen, or repeated later, are an error. */
  function PrepareListeners(ls: seq<Listener>, seen: set<string>): Result<seq<ListenerInfo>, BuildError> {
    if ls == [] then Ok([])
    else if ls[0].name in seen then Err(DuplicateListener(ls[0].name))
    else
      match PrepareListeners(ls[1..], seen + {ls[0].name})
      case Err(e) => Err(e)
      case Ok(rest) => Ok([ToListenerInfo(ls[0])] + rest)
  }

  /** Prefix of infos already built, followed by what the remaining listeners give. */
  function PrependInfos(done: seq<ListenerInfo>, r: Result<seq<ListenerInfo>, BuildError>): Result<seq<ListenerInfo>, BuildError> {
    match r
    case Err(e) => Err(e)
    case Ok(rest) => Ok(done + rest)
  }

  lemma PrependInfosNest(a: seq<ListenerInfo>, b: seq<ListenerInfo>, r: Result<seq<ListenerInfo>, BuildError>)
    ensures PrependInfos(a, PrependInfos(b, r)) == PrependInfos(a + b, r)
    ensures PrependInfos([], r) == r
  {
    if r.Ok? {
      assert a + (b + r.value) == (a + b) + r.value;
      assert [] + r.value == r.value;
    }
  }

  method PrepareListenerInfos(ls: seq<Listener>) returns (r: Result<seq<ListenerInfo>, BuildError>)
    ensures r == PrepareListeners(ls, {})
  {
    var seen: set<string> := {};
    var infos: seq<ListenerInfo> := [];
    var i := 0;
    PrependInfosNest([], [], PrepareListeners(ls, {}));
    while i < |ls|
      invariant 0 <= i <= |ls|
      invariant PrepareListeners(ls, {}) == PrependInfos(infos, PrepareListeners(ls[i..], seen))
    {
      var l := ls[i];
      if l.name in seen {
        return Err(DuplicateListener(l.name));
      }
      assert ls[i..][1..] == ls[i + 1..];
      assert PrepareListeners(ls[i..], seen) == PrependInfos([ToListenerInfo(l)], PrepareListeners(ls[i + 1..], seen + {l.name}));
      PrependInfosNest(infos, [ToListenerInfo(l)], PrepareListeners(ls[i + 1..], seen + {l.name}));
      seen := seen + {l.name};
      infos := infos + [ToListenerInfo(l)];
      i := i + 1;
    }
    assert ls[i..] == [];
    assert infos + [] == infos;
    return Ok(infos);
  }

  // --------------------------------------------------------------- routes

  predicate ValidRouteHost(h: string) {
    h != "" && '*' !in h
  }

  /** The first invalid hostname, if any. */
  function FirstInvalidHost(hosts: seq<string>): (r: Option<string>)
    ensures r.None? <==> forall k :: 0 <= k < |hosts| ==> ValidRouteHost(hosts[k])
    ensures r.Some? ==> r.value in hosts && !ValidRouteHost(r.value)
  {
    if hosts == [] then None
    else if !ValidRouteHost(hosts[0]) then Some(hosts[0])
    else
      assert forall k :: 1 <= k < |hosts| ==> hosts[k] == hosts[1..][k - 1];
      FirstInvalidHost(hosts[1..])
  }

  /** The hostname validation of an attached route. */
  function CheckRouteHostnames(route: HTTPRoute): Option<BuildError> {
    if route.hostnames == [] then Some(MissingHostnames(route.namespace, route.name))
    else match FirstInvalidHost(route.hostnames)
      case Some(h) => Some(InvalidHostname(route.namespace, route.name, h))
      case None => None
  }

  /** The sectionNames the route's parentRefs name (for any Gateway). */
  function SectionNames(refs: seq<ParentRef>): set<string> {
    set k | 0 <= k < |refs| && refs[k].sectionName.Some? :: refs[k].sectionName.value
  }

  /** What the building state of a route pass carries: vhostMap and routeForDomain. */
  datatype BuildState = BuildState(vhosts: map<string, VHostInfo>, claims: map<string, string>)

  /** Everything a hostname step of one route reads. */
  datatype RouteScope = RouteScope(
    listeners: seq<ListenerInfo>,
    gwNS: string,
    route: HTTPRoute,
    sections: set<string>,
    nsLabels: map<string, string>,
    cluster: Cluster,
    nodeIps: seq<string>)

  /** The three filters a listener passes to serve a hostname, in the source's order. */
  predicate ListenerCandidate(l: ListenerInfo, sc: RouteScope, host: string) {
    && (sc.sections == {} || l.name in sc.sections)
    && IsRouteNamespaceAllowed(l, sc.gwNS, sc.route.namespace, sc.nsLabels)
    && HostMatches(l.hostname, host)
  }

  /** The listeners that serve a hostname, in listener order. */
  function MatchedListeners(ls: seq<ListenerInfo>, sc: RouteScope, host: string): seq<ListenerInfo> {
    if ls == [] then []
    else (if ListenerCandidate(ls[0], sc, host) then [ls[0]] else []) + MatchedListeners(ls[1..], sc, host)
  }

  /** The matched listeners are exactly the candidates. */
  lemma {:induction false} MatchedListenersMembers(ls: seq<ListenerInfo>, sc: RouteScope, host: string)
    ensures forall l :: l in MatchedListeners(ls, sc, host) <==> l in ls && ListenerCandidate(l, sc, host)
    decreases |ls|
  {
    if ls != [] {
      MatchedListenersMembers(ls[1..], sc, host);
      assert forall l :: l in ls <==> l == ls[0] || l in ls[1..] by {
        assert ls == [ls[0]] + ls[1..];
      }
    }
  }

  predicate HasHttps(ls: seq<ListenerInfo>) {
    exists k :: 0 <= k < |ls| && ls[k].protocol == "HTTPS"
  }

  /** The ports of the matched HTTPS listeners when ssl, else of the matched HTTP listeners. */
  function PortsFor(ls: seq<ListenerInfo>, ssl: bool): (ports: seq<int>)
    ensures forall p :: p in ports <==> exists l :: l in ls && l.port == p && l.protocol == (if ssl then "HTTPS" else "HTTP")
  {
    if ls == [] then []
    else
      var rest := PortsFor(ls[1..], ssl);
      assert forall l :: l in ls <==> l == ls[0] || l in ls[1..];
      if (ssl && ls[0].protocol == "HTTPS") || (!ssl && ls[0].protocol == "HTTP") then [ls[0].port] + rest
      else rest
  }

  /** The ports of ports not among existing, in order (repeats within ports kept). */
  function NewPorts(ports: seq<int>, existing: seq<int>): seq<int> {
    if ports == [] then []
    else (if ports[0] in existing then [] else [ports[0]]) + NewPorts(ports[1..], existing)
  }

  /** The new ports are those of ports that are not already present. */
  lemma {:induction false} NewPortsMembers(ports: seq<int>, existing: seq<int>)
    ensures forall p :: p in NewPorts(ports, existing) <==> p in ports && p !in existing
    decreases |ports|
  {
    if ports != [] {
      NewPortsMembers(ports[1..], existing);
      assert forall p :: p in ports <==> p == ports[0] || p in ports[1..] by {
        assert ports == [ports[0]] + ports[1..];
      }
    }
  }

  /** Appending the ports not already present. */
  function MergePorts(existing: seq<int>, ports: seq<int>): seq<int> {
    existing + NewPorts(ports, existing)
  }

  /** The vhost record before this route's paths are appended: created, or merged into. */
  function UpsertVHost(vhosts: map<string, VHostInfo>, host: string, ssl: bool, ports: seq<int>): VHostInfo {
    if host !in vhosts then VHostInfo(host, ssl, ports, [])
    else
      var vh := vhosts[host];
      vh.(ports := MergePorts(vh.ports, ports), ssl := vh.ssl || ssl)
  }

  // ---------------------------------------------------------------- rules

  /** The path of one match, if it has a value and is a PathPrefix match (the default type). */
  function MatchPath(m: RouteMatch): Option<string> {
    if m.path.None? || m.path.value.value.None? then None
    else if m.path.value.matchType.Some? && m.path.value.matchType.value != "PathPrefix" then None
    else Some(m.path.value.value.value)
  }

  function MatchPaths(ms: seq<RouteMatch>): seq<string> {
    if ms == [] then []
    else
      match MatchPath(ms[0])
      case None => MatchPaths(ms[1..])
      case Some(p) => [p] + MatchPaths(ms[1..])
  }

  /** At most one path per match, and exactly the paths of the matches that have one. */
  lemma {:induction false} MatchPathsMembers(ms: seq<RouteMatch>)
    ensures |MatchPaths(ms)| <= |ms|
    ensures forall p :: p in MatchPaths(ms) <==> exists m :: m in ms && MatchPath(m) == Some(p)
    decreases |ms|
  {
    if ms != [] {
      MatchPathsMembers(ms[1..]);
      assert forall m :: m in ms <==> m == ms[0] || m in ms[1..] by {
        assert ms == [ms[0]] + ms[1..];
      }
    }
  }

  /** A rule without matches serves "/". */
  function RulePathStrings(rule: RouteRule): seq<string> {
    if rule.matches == [] then ["/"] else MatchPaths(rule.matches)
  }

  /** The outcome of looking a port number up among a Service's ports. */
  datatype PortLookup = NodePortOf(nodePort: int) | ZeroNodePort | NoSuchPort

  /** The first service port with the wanted number decides; a zero NodePort there is an error. */
  function FindNodePort(ports: seq<ServicePort>, want: int): (r: PortLookup)
    ensures r.NoSuchPort? <==> forall k :: 0 <= k < |ports| ==> ports[k].port != want
    ensures !r.NoSuchPort? ==>
      exists k :: 0 <= k < |ports| && ports[k].port == want && (forall j :: 0 <= j < k ==> ports[j].port != want) &&
        (if ports[k].nodePort == 0 then r == ZeroNodePort else r == NodePortOf(ports[k].nodePort))
  {
    if ports == [] then NoSuchPort
    else if ports[0].port == want then (if ports[0].nodePort == 0 then ZeroNodePort else NodePortOf(ports[0].nodePort))
    else
      assert forall k :: 1 <= k < |ports| ==> ports[k] == ports[1..][k - 1];
      FindNodePort(ports[1..], want)
  }

  /** The wanted port: the backend's explicit port, else the Service's first port, else 0. */
  function WantPort(b: BackendRef, svc: Service): int {
    if b.port.Some? then b.port.value else if |svc.ports| > 0 then svc.ports[0].port else 0
  }

  function PathInfos(paths: seq<string>, svc: Service, nodePort: int, nodeIps: seq<string>): (r: seq<PathInfo>)
    ensures |r| == |paths|
    ensures forall k :: 0 <= k < |r| ==> r[k] == PathInfo(paths[k], svc, nodePort, nodeIps)
  {
    if paths == [] then [] else [PathInfo(paths[0], svc, nodePort, nodeIps)] + PathInfos(paths[1..], svc, nodePort, nodeIps)
  }

  /** The paths one rule contributes; only its first backendRef is looked at. */
  function RulePaths(rule: RouteRule, sc: RouteScope): Result<seq<PathInfo>, BuildError> {
    if rule.backendRefs == [] then Ok([])
    else
      var b := rule.backendRefs[0];
      if b.group.Some? && b.group.value != "" then Err(NonCoreBackendGroup(b.group.value))
      else
        var ns := if b.namespace.Some? then b.namespace.value else sc.route.namespace;
        if NsName(ns, b.name) !in sc.cluster.services then Err(ServiceGetFailed(ns, b.name))
        else
          var svc := sc.cluster.services[NsName(ns, b.name)];
          var want := WantPort(b, svc);
          match FindNodePort(svc.ports, want)
          case NoSuchPort => Err(PortNotFound(svc.name, want))
          case ZeroNodePort => Err(NoNodePort(svc.name))
          case NodePortOf(np) => Ok(PathInfos(RulePathStrings(rule), svc, np, sc.nodeIps))
  }

  /** The rules loop: paths of every rule in order, or the first rule error. */
  function RulesPaths(rules: seq<RouteRule>, sc: RouteScope): Result<seq<PathInfo>, BuildError> {
    if rules == [] then Ok([])
    else
      match RulePaths(rules[0], sc)
      case Err(e) => Err(e)
      case Ok(ps) =>
        match RulesPaths(rules[1..], sc)
        case Err(e) => Err(e)
        case Ok(rest) => Ok(ps + rest)
  }

  // ------------------------------------------------------ hostname steps

  /**
   * One hostname of an attached route: the claim is checked and recorded
   * first; with no candidate listener the hostname is skipped; otherwise the
   * vhost is created or merged into and the route's paths are appended.
   */
  function HostStep(st: BuildState, host: string, sc: RouteScope): Result<BuildState, BuildError> {
    if host in st.claims && st.claims[host] != sc.route.name then
      Err(DomainConflict(host, st.claims[host], sc.route.name))
    else
      var claims := st.claims[host := sc.route.name];
      var matched := MatchedListeners(sc.listeners, sc, host);
      if matched == [] then Ok(BuildState(st.vhosts, claims))
      else
        var ssl := HasHttps(matched);
        var vh := UpsertVHost(st.vhosts, host, ssl, PortsFor(matched, ssl));
        match RulesPaths(sc.route.rules, sc)
        case Err(e) => Err(e)
        case Ok(paths) => Ok(BuildState(st.vhosts[host := vh.(paths := vh.paths + paths)], claims))
  }

  function HostsFold(st: BuildState, hosts: seq<string>, sc: RouteScope): Result<BuildState, BuildError>
    decreases |hosts|
  {
    if hosts == [] then Ok(st)
    else
      match HostStep(st, hosts[0], sc)
      case Err(e) => Err(e)
      case Ok(st') => HostsFold(st', hosts[1..], sc)
  }

  /** The scope of one route's hostname steps, once its namespace labels are known. */
  function ScopeOf(gw: Gateway, listeners: seq<ListenerInfo>, route: HTTPRoute, cluster: Cluster, nodeIps: seq<string>): RouteScope
    requires route.namespace in cluster.namespaceLabels
  {
    RouteScope(listeners, gw.namespace, route, SectionNames(route.parentRefs), cluster.namespaceLabels[route.namespace], cluster, nodeIps)
  }

  /** One route of the listed HTTPRoutes. */
  function RouteStep(st: BuildState, route: HTTPRoute, gw: Gateway, listeners: seq<ListenerInfo>, cluster: Cluster, nodeIps: seq<string>)
    : Result<BuildState, BuildError>
  {
    if !IsRouteAttachedToGateway(route, gw) then Ok(st)
    else match CheckRouteHostnames(route)
      case Some(e) => Err(e)
      case None =>
        if route.namespace !in cluster.namespaceLabels then Err(NamespaceLabelsFailed(route.namespace))
        else HostsFold(st, route.hostnames, ScopeOf(gw, listeners, route, cluster, nodeIps))
  }

  function RoutesFold(st: BuildState, routes: seq<HTTPRoute>, gw: Gateway, listeners: seq<ListenerInfo>, cluster: Cluster, nodeIps: seq<string>)
    : Result<BuildState, BuildError>
    decreases |routes|
  {
    if routes == [] then Ok(st)
    else
      match RouteStep(st, routes[0], gw, listeners, cluster, nodeIps)
      case Err(e) => Err(e)
      case Ok(st') => RoutesFold(st', routes[1..], gw, listeners, cluster, nodeIps)
  }

  const EmptyState: BuildState := BuildState(map[], map[])

  /** buildGatewayInfo as a whole. */
  function BuildSpec(gw: Gateway, cluster: Cluster): Result<GatewayInfo, BuildError> {
    if cluster.nodeListFails then Err(NodesListFailed)
    else
      var nodeIps := NodeIpList(cluster.nodes);
      match PrepareListeners(gw.listeners, {})
      case Err(e) => Err(e)
      case Ok(listeners) =>
        if cluster.routeListFails then Err(RoutesListFailed)
        else
          match RoutesFold(EmptyState, cluster.routes, gw, listeners, cluster, nodeIps)
          case Err(e) => Err(e)
          case Ok(st) => Ok(GatewayInfo(gw.uid, gw.name, gw.namespace, st.vhosts))
  }
}
