/**
 * The loops of buildGatewayInfo (internal/gateway/controller/gateway.go),
 * each proved equal to its specification function in module Topology.  The
 * vhost map and the hostname claims are the state a route loop updates.
 */
module TopologyBuild {
  import opened Wrappers
  import opened Kube
  import opened GatewayTypes
  import opened Matching
  import opened Topology

  /** The sectionNames set of one route (a map used as a set in the source). */
  method CollectSectionNames(refs: seq<ParentRef>) returns (names: set<string>)
    ensures names == SectionNames(refs)
  {
    names := {};
    var i := 0;
    while i < |refs|
      invariant 0 <= i <= |refs|
      invariant names == set k | 0 <= k < i && refs[k].sectionName.Some? :: refs[k].sectionName.value
    {
      if refs[i].sectionName.Some? {
        names := names + {refs[i].sectionName.value};
      }
      i := i + 1;
    }
  }

  /** matchedListeners: the candidate filter over all listeners, in order. */
  method MatchListeners(ls: seq<ListenerInfo>, sc: RouteScope, host: string) returns (matched: seq<ListenerInfo>)
    ensures matched == MatchedListeners(ls, sc, host)
  {
    matched := [];
    var i := 0;
    while i < |ls|
      invariant 0 <= i <= |ls|
      invariant matched + MatchedListeners(ls[i..], sc, host) == MatchedListeners(ls, sc, host)
    {
      var l := ls[i];
      MatchedListenersAt(ls, i, sc, host);
      if ListenerCandidate(l, sc, host) {
        AppendAssoc(matched, [l], MatchedListeners(ls[i + 1..], sc, host));
        matched := matched + [l];
      }
      i := i + 1;
    }
    assert ls[i..] == [];
    assert matched + [] == matched;
  }

  /** The SSL flag and then the port list of the matched listeners (two loops in the source). */
  method SslAndPorts(matched: seq<ListenerInfo>) returns (ssl: bool, ports: seq<int>)
    ensures ssl == HasHttps(matched)
    ensures ports == PortsFor(matched, ssl)
  {
    ssl := false;
    var i := 0;
    while i < |matched|
      invariant 0 <= i <= |matched|
      invariant ssl <==> exists k :: 0 <= k < i && matched[k].protocol == "HTTPS"
    {
      if matched[i].protocol == "HTTPS" {
        ssl := true;
      }
      i := i + 1;
    }
    ports := [];
    i := 0;
    while i < |matched|
      invariant 0 <= i <= |matched|
      invariant ports + PortsFor(matched[i..], ssl) == PortsFor(matched, ssl)
    {
      var l := matched[i];
      assert matched[i..][1..] == matched[i + 1..];
      if ssl && l.protocol == "HTTPS" {
        ports := ports + [l.port];
      }
      if !ssl && l.protocol == "HTTP" {
        ports := ports + [l.port];
      }
      i := i + 1;
    }
    assert matched[i..] == [];
    assert ports + [] == ports;
  }

  /** Merging ports into an existing vhost: the existing set is taken once, before the loop. */
  method MergeVHostPorts(vhPorts: seq<int>, ports: seq<int>) returns (merged: seq<int>)
    ensures merged == MergePorts(vhPorts, ports)
  {
    var existing := set p | p in vhPorts;
    merged := vhPorts;
    var i := 0;
    while i < |ports|
      invariant 0 <= i <= |ports|
      invariant merged + NewPorts(ports[i..], vhPorts) == vhPorts + NewPorts(ports, vhPorts)
    {
      var p := ports[i];
      NewPortsAt(ports, i, vhPorts);
      if p !in existing {
        assert p !in vhPorts;
        AppendAssoc(merged, [p], NewPorts(ports[i + 1..], vhPorts));
        merged := merged + [p];
      } else {
        assert p in vhPorts;
      }
      i := i + 1;
    }
    assert ports[i..] == [];
    assert merged + [] == merged;
  }

  /** The port scan of one Service: the first port with the wanted number decides. */
  method ResolveNodePort(ports: seq<ServicePort>, want: int) returns (r: PortLookup)
    ensures r == FindNodePort(ports, want)
  {
    var i := 0;
    while i < |ports|
      invariant 0 <= i <= |ports|
      invariant FindNodePort(ports, want) == FindNodePort(ports[i..], want)
    {
      var p := ports[i];
      if p.port == want {
        if p.nodePort == 0 {
          return ZeroNodePort;
        }
        return NodePortOf(p.nodePort);
      }
      assert ports[i..][1..] == ports[i + 1..];
      i := i + 1;
    }
    return NoSuchPort;
  }

  /** The path strings of one rule: "/" without matches, else the PathPrefix values. */
  method CollectPaths(rule: RouteRule) returns (paths: seq<string>)
    ensures paths == RulePathStrings(rule)
  {
    if rule.matches == [] {
      return ["/"];
    }
    var ms := rule.matches;
    paths := [];
    var i := 0;
    while i < |ms|
      invariant 0 <= i <= |ms|
      invariant paths + MatchPaths(ms[i..]) == MatchPaths(ms)
    {
      var m := ms[i];
      MatchPathsAt(ms, i);
      if m.path.Some? && m.path.value.value.Some? {
        var pathType := if m.path.value.matchType.Some? then m.path.value.matchType.value else "PathPrefix";
        if pathType == "PathPrefix" {
          assert MatchPath(m) == Some(m.path.value.value.value);
          AppendAssoc(paths, [m.path.value.value.value], MatchPaths(ms[i + 1..]));
          paths := paths + [m.path.value.value.value];
        }
      }
      i := i + 1;
    }
    assert ms[i..] == [];
    assert paths + [] == paths;
  }

  lemma AppendAssoc<T>(a: seq<T>, b: seq<T>, c: seq<T>)
    ensures (a + b) + c == a + (b + c)
  {
  }

  /** One unrolling of the candidate filter at position i. */
  lemma MatchedListenersAt(ls: seq<ListenerInfo>, i: nat, sc: RouteScope, host: string)
    requires i < |ls|
    ensures ListenerCandidate(ls[i], sc, host) ==>
      MatchedListeners(ls[i..], sc, host) == [ls[i]] + MatchedListeners(ls[i + 1..], sc, host)
    ensures !ListenerCandidate(ls[i], sc, host) ==>
      MatchedListeners(ls[i..], sc, host) == MatchedListeners(ls[i + 1..], sc, host)
  {
    assert ls[i..][0] == ls[i];
    assert ls[i..][1..] == ls[i + 1..];
  }

  /** One unrolling of the new-ports filter at position i. */
  lemma NewPortsAt(ports: seq<int>, i: nat, existing: seq<int>)
    requires i < |ports|
    ensures ports[i] !in existing ==> NewPorts(ports[i..], existing) == [ports[i]] + NewPorts(ports[i + 1..], existing)
    ensures ports[i] in existing ==> NewPorts(ports[i..], existing) == NewPorts(ports[i + 1..], existing)
  {
    assert ports[i..][0] == ports[i];
    assert ports[i..][1..] == ports[i + 1..];
  }

  /** One unrolling of the match paths at position i. */
  lemma MatchPathsAt(ms: seq<RouteMatch>, i: nat)
    requires i < |ms|
    ensures MatchPath(ms[i]).Some? ==> MatchPaths(ms[i..]) == [MatchPath(ms[i]).value] + MatchPaths(ms[i + 1..])
    ensures MatchPath(ms[i]).None? ==> MatchPaths(ms[i..]) == MatchPaths(ms[i + 1..])
  {
    assert ms[i..][0] == ms[i];
    assert ms[i..][1..] == ms[i + 1..];
  }

  /** One rule of the paths loop. */
  method ResolveRule(rule: RouteRule, sc: RouteScope) returns (r: Result<seq<PathInfo>, BuildError>)
    ensures r == RulePaths(rule, sc)
  {
    if |rule.backendRefs| == 0 {
      return Ok([]);
    }
    var backend := rule.backendRefs[0];
    if backend.group.Some? && backend.group.value != "" {
      return Err(NonCoreBackendGroup(backend.group.value));
    }
    var ns := sc.route.namespace;
    if backend.namespace.Some? {
      ns := backend.namespace.value;
    }
    if NsName(ns, backend.name) !in sc.cluster.services {
      return Err(ServiceGetFailed(ns, backend.name));
    }
    var svc := sc.cluster.services[NsName(ns, backend.name)];
    var wantPort := 0;
    if backend.port.Some? {
      wantPort := backend.port.value;
    } else if |svc.ports| > 0 {
      wantPort := svc.ports[0].port;
    }
    var lookup := ResolveNodePort(svc.ports, wantPort);
    match lookup
    case ZeroNodePort => return Err(NoNodePort(svc.name));
    case NoSuchPort => return Err(PortNotFound(svc.name, wantPort));
    case NodePortOf(nodePort) =>
      var paths := CollectPaths(rule);
      var infos: seq<PathInfo> := [];
      var i := 0;
      while i < |paths|
        invariant 0 <= i <= |paths|
        invariant infos == PathInfos(paths[..i], svc, nodePort, sc.nodeIps)
      {
        infos := infos + [PathInfo(paths[i], svc, nodePort, sc.nodeIps)];
        i := i + 1;
      }
      assert paths[..i] == paths;
      return Ok(infos);
  }

  /** The paths already appended, followed by what the remaining rules give. */
  function AppendPaths(done: seq<PathInfo>, r: Result<seq<PathInfo>, BuildError>): Result<seq<PathInfo>, BuildError> {
    match r
    case Err(e) => Err(e)
    case Ok(rest) => Ok(done + rest)
  }

  lemma AppendPathsNest(a: seq<PathInfo>, b: seq<PathInfo>, r: Result<seq<PathInfo>, BuildError>)
    ensures AppendPaths(a, AppendPaths(b, r)) == AppendPaths(a + b, r)
    ensures AppendPaths([], r) == r
  {
    if r.Ok? {
      assert a + (b + r.value) == (a + b) + r.value;
      assert [] + r.value == r.value;
    }
  }

  /** One hostname of an attached route, updating the vhost map and the claims. */
  method ProcessHostname(st: BuildState, host: string, sc: RouteScope) returns (r: Result<BuildState, BuildError>)
    ensures r == HostStep(st, host, sc)
  {
    if host in st.claims && st.claims[host] != sc.route.name {
      return Err(DomainConflict(host, st.claims[host], sc.route.name));
    }
    var claims := st.claims[host := sc.route.name];
    var matched := MatchListeners(sc.listeners, sc, host);
    if |matched| == 0 {
      return Ok(BuildState(st.vhosts, claims));
    }
    var ssl, ports := SslAndPorts(matched);
    var vh: VHostInfo;
    if host !in st.vhosts {
      vh := VHostInfo(host, ssl, ports, []);
    } else {
      vh := st.vhosts[host];
      var merged := MergeVHostPorts(vh.ports, ports);
      vh := vh.(ports := merged, ssl := vh.ssl || ssl);
    }
    assert vh == UpsertVHost(st.vhosts, host, ssl, PortsFor(matched, ssl));
    var withPaths := AppendRulesPaths(vh.paths, sc.route.rules, sc);
    if withPaths.Err? {
      return Err(withPaths.error);
    }
    vh := vh.(paths := withPaths.value);
    return Ok(BuildState(st.vhosts[host := vh], claims));
  }

  /** One unrolling of the rules loop specification, at position i. */
  lemma RulesPathsAt(rules: seq<RouteRule>, i: nat, sc: RouteScope)
    requires i < |rules|
    ensures RulesPaths(rules[i..], sc) ==
      match RulePaths(rules[i], sc)
      case Err(e) => Err(e)
      case Ok(ps) => AppendPaths(ps, RulesPaths(rules[i + 1..], sc))
  {
    assert rules[i..][1..] == rules[i + 1..];
    assert rules[i..][0] == rules[i];
  }

  /** The paths loop of one hostname: every rule appends its paths to the vhost's paths. */
  method AppendRulesPaths(vhPaths0: seq<PathInfo>, rules: seq<RouteRule>, sc: RouteScope) returns (r: Result<seq<PathInfo>, BuildError>)
    ensures r == AppendPaths(vhPaths0, RulesPaths(rules, sc))
  {
    var vhPaths := vhPaths0;
    var i := 0;
    while i < |rules|
      invariant 0 <= i <= |rules|
      invariant AppendPaths(vhPaths0, RulesPaths(rules, sc)) == AppendPaths(vhPaths, RulesPaths(rules[i..], sc))
    {
      var res := ResolveRule(rules[i], sc);
      RulesPathsAt(rules, i, sc);
      if res.Err? {
        return Err(res.error);
      }
      AppendPathsNest(vhPaths, res.value, RulesPaths(rules[i + 1..], sc));
      vhPaths := vhPaths + res.value;
      i := i + 1;
    }
    assert rules[i..] == [];
    assert vhPaths + [] == vhPaths;
    return Ok(vhPaths);
  }

  /** One listed HTTPRoute: attachment, hostname validation, namespace labels, then its hostnames. */
  method ProcessRoute(st: BuildState, route: HTTPRoute, gw: Gateway, listeners: seq<ListenerInfo>, cluster: Cluster, nodeIps: seq<string>)
    returns (r: Result<BuildState, BuildError>)
    ensures r == RouteStep(st, route, gw, listeners, cluster, nodeIps)
  {
    if !IsRouteAttachedToGateway(route, gw) {
      return Ok(st);
    }
    var hosts := route.hostnames;
    if |hosts| == 0 {
      return Err(MissingHostnames(route.namespace, route.name));
    }
    var i := 0;
    while i < |hosts|
      invariant 0 <= i <= |hosts|
      invariant FirstInvalidHost(hosts) == FirstInvalidHost(hosts[i..])
    {
      var h := hosts[i];
      if h == "" || '*' in h {
        return Err(InvalidHostname(route.namespace, route.name, h));
      }
      assert hosts[i..][1..] == hosts[i + 1..];
      i := i + 1;
    }
    var sections := CollectSectionNames(route.parentRefs);
    if route.namespace !in cluster.namespaceLabels {
      return Err(NamespaceLabelsFailed(route.namespace));
    }
    var sc := RouteScope(listeners, gw.namespace, route, sections, cluster.namespaceLabels[route.namespace], cluster, nodeIps);
    assert sc == ScopeOf(gw, listeners, route, cluster, nodeIps);
    var cur := st;
    i := 0;
    while i < |hosts|
      invariant 0 <= i <= |hosts|
      invariant HostsFold(st, hosts, sc) == HostsFold(cur, hosts[i..], sc)
    {
      var res := ProcessHostname(cur, hosts[i], sc);
      assert hosts[i..][1..] == hosts[i + 1..];
      match res
      case Err(e) =>
        return Err(e);
      case Ok(next) =>
        cur := next;
      i := i + 1;
    }
    return Ok(cur);
  }

  /** buildGatewayInfo: node IPs, the listener pass, then the route loop. */
  method BuildGatewayInfo(gw: Gateway, cluster: Cluster) returns (r: Result<GatewayInfo, BuildError>)
    ensures r == BuildSpec(gw, cluster)
  {
    var ipsResult := GetNodesIpList(cluster);
    if ipsResult.Err? {
      return Err(ipsResult.error);
    }
    var nodeIps := ipsResult.value;
    var listenersResult := PrepareListenerInfos(gw.listeners);
    if listenersResult.Err? {
      return Err(listenersResult.error);
    }
    var listeners := listenersResult.value;
    if cluster.routeListFails {
      return Err(RoutesListFailed);
    }
    var routes := cluster.routes;
    var st := EmptyState;
    var i := 0;
    while i < |routes|
      invariant 0 <= i <= |routes|
      invariant RoutesFold(EmptyState, routes, gw, listeners, cluster, nodeIps) == RoutesFold(st, routes[i..], gw, listeners, cluster, nodeIps)
    {
      var res := ProcessRoute(st, routes[i], gw, listeners, cluster, nodeIps);
      assert routes[i..][1..] == routes[i + 1..];
      match res
      case Err(e) =>
        return Err(e);
      case Ok(next) =>
        st := next;
      i := i + 1;
    }
    return Ok(GatewayInfo(gw.uid, gw.name, gw.namespace, st.vhosts));
  }
}
